/** What each operation of the in-memory session comes to: the events it adds to the log, spelled
    out, the answer it gives, and what it leaves of the session. */
module MemoryOutcomes {
  import opened Basics
  import opened RunEvents
  import opened CompactionChecker
  import opened MemoryRun
  import opened SessionLedger
  import opened MemoryBook
  import opened MemoryOps
  import opened MemoryCalls
  import opened MemoryGates
  import opened MemoryHistory
  import Changes = MemoryChanges
  import Session = MemorySession

  /** The kinds of a run's events, in order. */
  function Script(b: Book, id: nat): seq<Kind> {
    Kinds(OfRun(b.log, id))
  }

  /** An operation published these events of a run. */
  ghost predicate Adds(b: Book, b': Book, id: nat, ks: seq<Kind>) {
    b.log <= b'.log && Script(b', id) == Script(b, id) + ks
  }

  /** Each of some steers settled, in order. */
  predicate EachApplied(ks: seq<Kind>, steers: seq<Steer>) {
    |ks| == |steers| && forall i | 0 <= i < |ks| :: ks[i] == SteerApplied(steers[i].submission)
  }

  predicate EachDropped(ks: seq<Kind>, steers: seq<Steer>) {
    |ks| == |steers| && forall i | 0 <= i < |ks| :: ks[i] == SteerDropped(steers[i].submission)
  }

  /** A run goes on to its input: some events, its pending steers applied, the request, the status. */
  ghost predicate GoesOn(b: Book, b': Book, id: nat, ks: seq<Kind>) {
    && id in b.runs && id in b'.runs && !b'.runs[id].terminal
    && exists mid :: EachApplied(mid, b.runs[id].steers)
         && Adds(b, b', id, ks + mid + [InputRequested, StatusUpdated(WaitingForInput)])
  }

  /** A run settles: some events, its pending steers dropped, and one that ends it. */
  ghost predicate Settles(b: Book, b': Book, id: nat, ks: seq<Kind>, end: Kind, status: Status) {
    && id in b.runs && id in b'.runs && b'.runs[id].terminal && b'.runs[id].status == status
    && exists mid :: EachDropped(mid, b.runs[id].steers) && Adds(b, b', id, ks + mid + [end])
  }

  // ------------------------------------------------------------ scripts and logs

  lemma {:induction false} ScriptOf(b: Book, id: nat)
    requires Inv(b) && id in b.runs
    ensures id in b.traces && Script(b, id) == Kinds(b.traces[id])
  {
    hide Inv, OfRun, Kinds;
    InvLogged(b, id);
    LoggedKnown(b, id);
  }

  lemma {:induction false} WentOn(b: Book, b': Book, id: nat, ks: seq<Kind>)
    requires Inv(b) && Inv(b') && id in b.runs && id in b'.runs && id in b.traces && id in b'.traces && b.log <= b'.log
    requires Kinds(b'.traces[id]) == Kinds(b.traces[id]) + ks + Asking(b.runs[id].steers) && !b'.runs[id].terminal
    ensures GoesOn(b, b', id, ks)
  {
    hide Inv, Kinds, OfRun;
    ScriptOf(b, id);
    ScriptOf(b', id);
    var steers := b.runs[id].steers;
    assert EachApplied(Applied(steers), steers);
    assert Script(b, id) + ks + Asking(steers)
        == Script(b, id) + (ks + Applied(steers) + [InputRequested, StatusUpdated(WaitingForInput)]);
  }

  lemma {:induction false} Settled(b: Book, b': Book, id: nat, ks: seq<Kind>, end: Kind)
    requires Inv(b) && Inv(b') && id in b.runs && b.log <= b'.log && Terminal(end)
    requires SettledWith(b, b', id, ks + Dropped(b.runs[id].steers), end)
    ensures Settles(b, b', id, ks, end, StatusAfter(b.runs[id], end))
  {
    hide Inv, Kinds, OfRun;
    ScriptOf(b, id);
    ScriptOf(b', id);
    var steers := b.runs[id].steers;
    assert EachDropped(Dropped(steers), steers);
    assert Script(b, id) + (ks + Dropped(steers)) + [end] == Script(b, id) + (ks + Dropped(steers) + [end]);
  }

  // ------------------------------------------------------------ permission and input

  /** A run whose events leave its permission, its input or its provided call unanswered. */
  ghost predicate Awaits(b: Book, id: nat, stage: Stage) {
    id in b.runs && TrackOf(Script(b, id)).Some? && StageAwaits(b.runs[id], TrackOf(Script(b, id)).value, stage)
  }

  predicate StageAwaits(run: Run, t: Track, stage: Stage) {
    match stage
    case StagePermission => t.permission.Open?
    case StageInput => t.input.Open?
    case StageCall => run.callID != 0 && (t.call.CallOpen? || t.call.CallRunning?)
    case StageTerminal => false
  }

  lemma {:induction false} PoisedStage(run: Run, f: Focus, stage: Stage)
    requires Poised(run, f) && Agrees(run, f)
    ensures StageAwaits(run, f.t, stage) <==> run.stage == stage
  {
    hide Calm;
  }

  lemma {:induction false} SettledStage(run: Run, trace: seq<Event>, stage: Stage)
    requires Tracked(run, trace) && (TrackOf(Kinds(trace)).value.terminal || trace == [])
    ensures !StageAwaits(run, TrackOf(Kinds(trace)).value, stage)
  {
    TrackFlags(Kinds(trace));
    if trace == [] {
      NoKinds();
    }
  }

  lemma {:induction false} UnsettledOpen(b: Book, id: nat)
    requires Inv(b) && id in b.runs && !b.runs[id].terminal
    ensures !b.closed
  {
    hide RunsSound, LogSound, StreamsSound, SteersSound, OrderSound, SteadyAt;
  }

  lemma {:induction false} SteadyOf(b: Book, id: nat)
    requires Inv(b) && id in b.runs
    ensures Known(b, id) && Steady(b.runs[id], b.traces[id]) && Agrees(b.runs[id], FocusAt(b, id))
    ensures TrackOf(Script(b, id)) == Some(FocusAt(b, id).t)
  {
    hide Sound, Steady, Agrees, Kinds, OfRun;
    InvIsSound(b);
    KnownRun(b, id);
    ScriptOf(b, id);
    assert SteadyAt(b, id);
  }

  /** What a run awaits is the stage it is in. */
  lemma {:induction false} AwaitsStage(b: Book, id: nat, stage: Stage)
    requires Inv(b) && Awaits(b, id, stage)
    ensures id in b.runs && b.runs[id].stage == stage && b.runs[id].started && !b.runs[id].terminal && id in b.traces && !b.closed
  {
    hide Inv, Poised, Agrees, Kinds, OfRun, TrackOf, Draft, Script;
    SteadyOf(b, id);
    var run, f := b.runs[id], FocusAt(b, id);
    if run.terminal || b.traces[id] == [] {
      AgreesFlags(run, f);
      SettledStage(run, b.traces[id], stage);
    } else {
      UnsettledOpen(b, id);
      PoisedStage(run, f, stage);
    }
  }

  lemma {:induction false} AgreesFlags(run: Run, f: Focus)
    requires Agrees(run, f)
    ensures f.t.terminal == run.terminal
  {
  }

  /** An answer to a permission, given by and for the right ones. */
  predicate PermissionAddressed(cfg: Config, q: Resolution, run: Run) {
    && q.respondedBy == cfg.participant && q.input.None? && q.permission.Some?
    && var p := q.permission.value;
       && p.interaction == run.permissionID && p.sessionID == cfg.sessionID && p.run == q.run
       && p.requestedBy == ENDPOINT && p.respondedBy == cfg.participant
  }

  /** An approval grants a permission that is awaited: the call runs and the run goes on to its input.
      A denial cancels the call and fails the run. A choice that was not offered, or that says one
      thing and grants another, is refused and changes nothing. */
  lemma {:induction false} PermissionAnswered(b: Book, cfg: Config, q: Resolution)
    requires Inv(b) && Awaits(b, q.run, StagePermission) && PermissionAddressed(cfg, q, b.runs[q.run])
    ensures var p, refusal, b' := q.permission.value, ResolveRefusal(b, cfg, q), Apply(b, cfg, Resolve(q));
      if p.choice == "approve" && p.granted then
        refusal.None? && GoesOn(b, b', q.run, [PermissionResolved(true), CallStarted, CallCompleted])
      else if p.choice == "deny" && !p.granted then
        refusal.None? && Settles(b, b', q.run, [PermissionResolved(false), CallCancelled], RunFailed, Failed)
      else refusal == Some(InvalidResolution) && b' == b
  {
    hide Inv, GrantedBook, DeniedBook, GoesOn, Settles, Kinds, SettledWith, Awaits;
    var id, p := q.run, q.permission.value;
    AwaitsStage(b, id, StagePermission);
    if p.choice == "approve" && p.granted {
      PermissionKeeps(b, id, true);
      PermissionRuns(b, id);
      WentOn(b, Apply(b, cfg, Resolve(q)), id, [PermissionResolved(true), CallStarted, CallCompleted]);
    } else if p.choice == "deny" && !p.granted {
      PermissionKeeps(b, id, false);
      Settled(b, Apply(b, cfg, Resolve(q)), id, [PermissionResolved(false), CallCancelled], RunFailed);
    }
  }

  lemma {:induction false} AskedRuns(b: Book, id: nat)
    requires id in b.runs && id in b.traces && !b.runs[id].terminal
    ensures !InputAsked(b, id).runs[id].terminal
  {
    hide Delivered, SettledAfter, PendingAfter, SettlementAfter, Without;
    PlainRuns(b, id, Applied(b.runs[id].steers));
  }

  lemma {:induction false} PlainRuns(b: Book, id: nat, ks: seq<Kind>)
    requires id in b.runs && id in b.traces && !b.runs[id].terminal && forall k | k in ks :: !Terminal(k)
    ensures !PublishedAll(b, id, ks).runs[id].terminal
    decreases |ks|
  {
    hide Delivered, SettledAfter, PendingAfter, SettlementAfter, Without, SlotsAfter;
    if ks != [] {
      assert ks[|ks| - 1] in ks && forall k | k in ks[..|ks| - 1] :: k in ks;
      PlainRuns(b, id, ks[..|ks| - 1]);
    }
  }

  lemma {:induction false} PermissionRuns(b: Book, id: nat)
    requires id in b.runs && id in b.traces && !b.runs[id].terminal
    ensures var b' := GrantedBook(Put(b, id, b.runs[id].(stage := StageInput)), id); id in b'.runs && !b'.runs[id].terminal
  {
    hide InputAsked, PublishedAll;
    var b1 := Put(b, id, b.runs[id].(stage := StageInput));
    var ks := [PermissionResolved(true), CallStarted, CallCompleted];
    PlainRuns(b1, id, ks);
    AskedRuns(PublishedAll(b1, id, ks), id);
  }

  predicate InputAddressed(cfg: Config, q: Resolution, run: Run) {
    && q.respondedBy == cfg.participant && q.permission.None? && q.input.Some?
    && var p := q.input.value;
       && p.interaction == run.inputID && p.sessionID == cfg.sessionID && p.run == q.run
       && p.requestedBy == ENDPOINT && p.respondedBy == cfg.participant
  }

  /** A valid answer to an input that is awaited completes the run, and its reply counts towards the
      history; an invalid one is refused and changes nothing. */
  lemma {:induction false} InputAnswered(b: Book, cfg: Config, q: Resolution)
    requires Inv(b) && Awaits(b, q.run, StageInput) && InputAddressed(cfg, q, b.runs[q.run])
    ensures var refusal, b' := ResolveRefusal(b, cfg, q), Apply(b, cfg, Resolve(q));
      if q.input.value.answersValid then
        refusal.None? && Settles(b, b', q.run, [InputResolved(true), ContentDelta], RunCompleted("end_turn"), Completed)
      else refusal == Some(InvalidResolution) && b' == b
  {
    hide Inv, AnsweredBook, Settles, Kinds, SettledWith, Awaits;
    AwaitsStage(b, q.run, StageInput);
    if q.input.value.answersValid {
      InputKeeps(b, q.run);
      Settled(b, Apply(b, cfg, Resolve(q)), q.run, [InputResolved(true), ContentDelta], RunCompleted("end_turn"));
    }
  }

  /** An answer of the wrong kind for what a run awaits is refused and changes nothing. */
  lemma {:induction false} MisdirectedRefused(b: Book, cfg: Config, q: Resolution)
    requires Inv(b) && q.respondedBy == cfg.participant
    requires || (Awaits(b, q.run, StagePermission) && !PermissionAddressed(cfg, q, b.runs[q.run]))
             || (Awaits(b, q.run, StageInput) && !InputAddressed(cfg, q, b.runs[q.run]))
    ensures ResolveRefusal(b, cfg, q) == Some(InvalidResolution) && Apply(b, cfg, Resolve(q)) == b
  {
    hide Inv, GrantedBook, DeniedBook, AnsweredBook;
    if Awaits(b, q.run, StagePermission) && !PermissionAddressed(cfg, q, b.runs[q.run]) {
      AwaitsStage(b, q.run, StagePermission);
    } else {
      AwaitsStage(b, q.run, StageInput);
    }
  }

  // ------------------------------------------------------------ provided calls

  predicate CallAddressed(cfg: Config, q: CallResolution, run: Run) {
    && q.interaction == run.callID && q.sessionID == cfg.sessionID && q.respondedBy == cfg.participant
    && q.requestedBy == ENDPOINT && q.toolCallMatches
  }

  ghost predicate CallRuns(b: Book, id: nat) {
    TrackOf(Script(b, id)).Some? && TrackOf(Script(b, id)).value.call.CallRunning?
  }

  lemma {:induction false} RunsAcknowledged(b: Book, id: nat)
    requires Inv(b) && Awaits(b, id, StageCall)
    ensures id in b.runs && b.runs[id].settledArm.NoArm? && b.runs[id].callID != 0
    ensures CallRuns(b, id) <==> b.runs[id].acknowledged
  {
    hide Inv, Agrees, Kinds, OfRun, TrackOf, Draft, Script, Calm;
    AwaitsStage(b, id, StageCall);
    SteadyOf(b, id);
  }

  lemma {:induction false} CallAcknowledged(b: Book, cfg: Config, q: CallResolution)
    requires Inv(b) && Awaits(b, q.run, StageCall) && CallAddressed(cfg, q, b.runs[q.run]) && q.arm.ArmAcknowledge?
    ensures var answer, b' := CallAnswerOf(b, cfg, q), Apply(b, cfg, ResolveCall(q));
      if b.runs[q.run].acknowledged then answer == CallRefused(RepeatedAcknowledgement, 0) && b' == b
      else answer == CallAccepted && Adds(b, b', q.run, [CallStarted])
  {
    hide Inv, Kinds, CallRuns, OfRun, PublishedAll, Script;
    var id := q.run;
    AwaitsStage(b, id, StageCall);
    RunsAcknowledged(b, id);
    hide Awaits;
    if !b.runs[id].acknowledged {
      AcknowledgeKeeps(b, id);
      ScriptOf(b, id);
      ScriptOf(Apply(b, cfg, ResolveCall(q)), id);
    }
  }

  lemma {:induction false} CallSettled(b: Book, cfg: Config, q: CallResolution)
    requires Inv(b) && Awaits(b, q.run, StageCall) && CallAddressed(cfg, q, b.runs[q.run]) && (q.arm.ArmResult? || q.arm.ArmError?)
    ensures CallAnswerOf(b, cfg, q) == CallAccepted
    ensures GoesOn(b, Apply(b, cfg, ResolveCall(q)), q.run, CallScript(b.runs[q.run].acknowledged, q.arm))
  {
    hide Inv, GoesOn, Kinds, CallRuns, OfRun, PublishedAll, InputAsked, Asking, Script, CallScript;
    var id := q.run;
    AwaitsStage(b, id, StageCall);
    RunsAcknowledged(b, id);
    hide Awaits;
    var run := b.runs[id];
    ResultKeeps(b, id, q.arm, q.envelope);
    var b1 := Put(b, id, run.(settledArm := q.arm, settledRequest := q.envelope, stage := StageInput));
    var ks := CallScript(run.acknowledged, q.arm);
    CallPlain(run.acknowledged, q.arm);
    PlainRuns(b1, id, ks);
    AskedRuns(PublishedAll(b1, id, ks), id);
    WentOn(b, Apply(b, cfg, ResolveCall(q)), id, ks);
  }

  lemma {:induction false} CallPlain(acknowledged: bool, arm: Arm)
    ensures forall k | k in CallScript(acknowledged, arm) :: !Terminal(k)
    ensures var start := if acknowledged then [] else [CallStarted];
      CallScript(acknowledged, arm) == start + (if arm.ArmError? then [CallFailed] else [CallCompleted])
  {
  }

  /** An acknowledgement starts a provided call that is awaited, once. A result completes it and an
      error fails it, starting it first unless it was acknowledged, and the run goes on to its input. */
  lemma {:induction false} CallAnswered(b: Book, cfg: Config, q: CallResolution)
    requires Inv(b) && Awaits(b, q.run, StageCall) && CallAddressed(cfg, q, b.runs[q.run])
    ensures var answer, b' := CallAnswerOf(b, cfg, q), Apply(b, cfg, ResolveCall(q));
      var start := if CallRuns(b, q.run) then [] else [CallStarted];
      match q.arm
      case NoArm => answer == CallRefused(UnknownInteraction, 0) && b' == b
      case ArmAcknowledge =>
        if CallRuns(b, q.run) then answer == CallRefused(RepeatedAcknowledgement, 0) && b' == b
        else answer == CallAccepted && Adds(b, b', q.run, [CallStarted])
      case ArmResult => answer == CallAccepted && GoesOn(b, b', q.run, start + [CallCompleted])
      case ArmError => answer == CallAccepted && GoesOn(b, b', q.run, start + [CallFailed])
  {
    hide Inv, GoesOn, Adds, Kinds, CallRuns, Script, PublishedAll, InputAsked, CallScript;
    AwaitsStage(b, q.run, StageCall);
    RunsAcknowledged(b, q.run);
    CallPlain(b.runs[q.run].acknowledged, q.arm);
    match q.arm {
      case NoArm =>
      case ArmAcknowledge => CallAcknowledged(b, cfg, q);
      case _ => CallSettled(b, cfg, q);
    }
  }

  /** A call answered under another id, in another session or of a run the session does not know is unknown,
      and one answered by or for another, or as another call, is refused as that; nothing changes. */
  lemma {:induction false} CallMisaddressed(b: Book, cfg: Config, q: CallResolution)
    requires Inv(b) && !b.closed && (q.run in b.runs ==> Awaits(b, q.run, StageCall) && !CallAddressed(cfg, q, b.runs[q.run]))
    ensures Apply(b, cfg, ResolveCall(q)) == b
    ensures CallAnswerOf(b, cfg, q) ==
      CallRefused(if q.run !in b.runs || q.interaction != b.runs[q.run].callID || q.sessionID != cfg.sessionID
                  then UnknownInteraction else CallWrongResponder, 0)
  {
    hide Inv, Awaits;
    if q.run in b.runs {
      RunsAcknowledged(b, q.run);
    }
  }

  /** A call that was settled is not settled again, whoever asks; an acknowledgement after a settlement that
      was never published comes too late. */
  lemma {:induction false} CallSettledOnce(b: Book, cfg: Config, q: CallResolution)
    requires Inv(b) && !b.closed && q.run in b.runs && CallAddressed(cfg, q, b.runs[q.run])
    requires b.runs[q.run].callID != 0 && !b.runs[q.run].settledArm.NoArm? && !q.arm.NoArm?
    ensures Apply(b, cfg, ResolveCall(q)) == b
    ensures var run, answer := b.runs[q.run], CallAnswerOf(b, cfg, q);
      answer == if q.arm.ArmAcknowledge? && run.settlementID == 0 then CallRefused(LateAcknowledgement, 0)
                else CallRefused(AlreadyResolved, if run.settlementID == 0 then run.settledRequest else run.settlementID)
  {
    hide Inv;
  }

  // ------------------------------------------------------------ cancelling

  /** What cancelling a started run closes, by what it awaits. */
  ghost predicate Closes(b: Book, id: nat, ks: seq<Kind>) {
    || (Awaits(b, id, StagePermission) && ks == [PermissionResolved(false), CallCancelled])
    || (Awaits(b, id, StageCall) && ks == [CallCancelled])
    || (Awaits(b, id, StageInput) && ks == [InputResolved(false)])
  }

  lemma {:induction false} StageAwaited(b: Book, id: nat)
    requires Inv(b) && id in b.runs && b.runs[id].started && !b.runs[id].terminal
    ensures Awaits(b, id, b.runs[id].stage) && !b.runs[id].stage.StageTerminal?
  {
    hide Inv, Poised, Agrees, Kinds, OfRun, TrackOf, Draft, Script;
    SteadyOf(b, id);
    PoisedStage(b.runs[id], FocusAt(b, id), b.runs[id].stage);
  }

  /** Cancelling an unsettled run of an open session settles it as cancelled: a started one announces it,
      closes what it awaits and drops its steers, and one that waits only ends. A run cancelled before
      is answered so, and any other settled one by its status. */
  lemma {:induction false} CancelSettles(b: Book, cfg: Config, id: nat)
    requires Inv(b) && !b.closed && id in b.runs
    ensures var answer, b' := CancelAnswerOf(b, id), Apply(b, cfg, Cancel(id));
      if b.runs[id].terminal then
        && b' == b
        && answer == if b.runs[id].status == Status.Cancelled then CancelAnswer.Cancelled(Status.Cancelled)
                     else CancelRefused(RunTerminal(b.runs[id].status))
      else
        && answer == CancelAnswer.Cancelled(Cancelling)
        && if b.runs[id].started then
             exists ks :: Closes(b, id, ks) && Settles(b, b', id, [StatusUpdated(Cancelling)] + ks, RunCancelled, Status.Cancelled)
           else Settles(b, b', id, [], RunCancelled, Status.Cancelled)
  {
    hide Inv, CancelBook, Settles, Kinds, SettledWith, Awaits;
    CancelKeeps(b, id);
    if !b.runs[id].terminal {
      var run, b' := b.runs[id], Apply(b, cfg, Cancel(id));
      if run.started {
        StageAwaited(b, id);
        var ks := CloseGates(run.stage);
        Settled(b, b', id, [StatusUpdated(Cancelling)] + ks, RunCancelled);
        assert Closes(b, id, ks);
      } else {
        ReservedFocusSteers(b, id);
        assert [] + Dropped(run.steers) == [];
        Settled(b, b', id, [], RunCancelled);
      }
    }
  }

  lemma {:induction false} ReservedFocusSteers(b: Book, id: nat)
    requires Inv(b) && id in b.runs && !b.runs[id].started && !b.runs[id].terminal
    ensures b.runs[id].steers == []
  {
    hide Sound, FocusOf;
    assert SteadyAt(b, id);
  }

  // ------------------------------------------------------------ admission

  lemma {:induction false} PublishedHistory(b: Book, id: nat, ks: seq<Kind>)
    requires id in b.runs && id in b.traces
    ensures var b' := PublishedAll(b, id, ks);
      b'.history == b.history && b'.threshold == b.threshold && b'.runs[id].focus == b.runs[id].focus
    decreases |ks|
  {
    hide Delivered, SettledAfter, PendingAfter, SettlementAfter, Without, SlotsAfter, StatusAfter;
    if ks != [] {
      PublishedHistory(b, id, ks[..|ks| - 1]);
    }
  }

  lemma {:induction false} AskedHistory(b: Book, id: nat)
    requires id in b.runs && id in b.traces
    ensures InputAsked(b, id).history == b.history && Asked(b, id).history == b.history
  {
    hide PublishedAll, RunAfter, Delivered, SettledAfter, SlotsAfter;
    PublishedHistory(b, id, Applied(b.runs[id].steers));
    var b1 := Published(b, id, ContentDelta);
    PublishedHistory(b1, id, Applied(b1.runs[id].steers));
    PublishedHistory(b1, id, [CallRequested, PermissionRequested]);
  }

  lemma {:induction false} BegunKeeps(b: Book, id: nat)
    requires id in b.runs && id in b.traces
    ensures var b' := Begun(b, id);
      && b'.history == b.history && b'.threshold == b.threshold && b'.runs[id].focus == b.runs[id].focus
  {
    hide Delivered, SettledAfter, PendingAfter, SettlementAfter, Without, SlotsAfter;
  }

  lemma {:induction false} CompactedHistory(b: Book, id: nat, reason: Reason)
    requires id in b.runs && id in b.traces
    ensures Compacted(b, id, reason).history == SummaryTokens(b.runs[id].focus)
  {
    hide PublishedAll;
  }

  /** What the session takes its history for once a run has opened: the run's input added, or the
      summary it was compacted to. */
  lemma {:induction false} OpenedHistory(b: Book, id: nat)
    requires id in b.runs && id in b.traces
    ensures Opened(b, id).history ==
      if OpeningReason(b, id).Some? then SummaryTokens(b.runs[id].focus) else b.history + b.runs[id].input
  {
    if b.runs[id].compaction {
      CompactingHistory(b, id);
    } else {
      RunningHistory(b, id);
    }
  }

  lemma {:induction false} CompactingHistory(b: Book, id: nat)
    requires id in b.runs && id in b.traces && b.runs[id].compaction
    ensures Opened(b, id).history == SummaryTokens(b.runs[id].focus)
  {
    hide Begun, Asked, Compacted, RunAfter, Delivered, SettledAfter, SlotsAfter;
    BegunKeeps(b, id);
    var b1 := Begun(b, id);
    CompactedHistory(b1, id, Requested);
    AskedHistory(Compacted(b1, id, Requested), id);
  }

  lemma {:induction false} RunningHistory(b: Book, id: nat)
    requires id in b.runs && id in b.traces && !b.runs[id].compaction
    ensures Opened(b, id).history ==
      if OpeningReason(b, id).Some? then SummaryTokens(b.runs[id].focus) else b.history + b.runs[id].input
  {
    hide Begun, Asked, Compacted, Published;
    BegunKeeps(b, id);
    var b1 := Begun(b, id);
    var b2 := b1.(history := b1.history + b.runs[id].input);
    var reason := AutoReason(b2);
    if reason.Some? {
      CompactedHistory(b2, id, reason.value);
      AskedHistory(Compacted(b2, id, reason.value), id);
    } else {
      AskedHistory(b2, id);
    }
  }

  /** The compaction a run opens with: for overflow at 8192 tokens of history, short of that at the
      session's threshold, and otherwise none. */
  predicate CompactsAt(total: nat, threshold: nat, ks: seq<Kind>) {
    if total < 8192 && total < threshold then ks == []
    else
      && |ks| == 2 && ks[0].CompactionStarted? && ks[1] == CompactionEnded(ks[0].compaction, OutcomeCompleted, false)
      && ks[0].reason == if total >= 8192 then Overflow else Threshold
  }

  /** What a run opens with behind run.started and its compaction. */
  function FirstGate(callsTool: bool, provided: bool): seq<Kind> {
    if !callsTool then [ContentDelta, InputRequested, StatusUpdated(WaitingForInput)]
    else if provided then [ContentDelta, CallRequested]
    else [ContentDelta, CallRequested, PermissionRequested]
  }

  predicate Submittable(b: Book, cfg: Config, q: Submission) {
    && !b.closed && q.sessionID == cfg.sessionID != "" && q.messages > 0 && q.controls.Some?
    && (q.delivery.Auto? || q.delivery.AsQueue?)
  }

  lemma {:induction false} OpenedScript(b: Book, id: nat)
    requires Unbegun(b, id)
    ensures id in Opened(b, id).runs && id in Opened(b, id).traces && OpenedWell(b, Opened(b, id), id)
    ensures exists c ::
      Kinds(Opened(b, id).traces[id]) == OpeningScript(b.runs[id], OpeningReason(b, id), c)
  {
    hide Opened, OpenedWell, OpeningScript, Kinds, StartsOf;
    OpenedKeeps(b, id);
  }

  /** A run admitted to an idle session follows its opening script. */
  lemma {:induction false} AdmittedOpens(b: Book, run: Run, queue: bool)
    requires Inv(b) && !b.closed && b.active.None? && NewDraft(run)
    ensures var id, b1, b' := b.ids, Enlisted(b, run, queue), AdmitBook(b, run, queue);
      && id !in b.runs && id in b'.runs && id in b1.runs && b.log <= b'.log && Inv(b') && b1.runs[id].input == run.input
      && b1.runs[id] == run.(queuedAdmission := queue, status := if queue then Queued else Running, subscribers := [b.feeds])
      && b1.history == b.history && b1.threshold == b.threshold
      && (exists c :: Script(b', id) == OpeningScript(b1.runs[id], OpeningReason(b1, id), c))
      && b'.history == if OpeningReason(b1, id).Some? then SummaryTokens(run.focus) else b.history + run.input
  {
    hide Inv, Opened, Kinds, OpeningReason, OpeningScript, OpenedWell, Script, Unbegun, NewDraft;
    var id, b1 := b.ids, Enlisted(b, run, queue);
    IdleAdmits(b, run, queue);
    AdmitKeeps(b, run, queue);
    OpenedScript(b1, id);
    OpenedHistory(b1, id);
    ScriptOf(AdmitBook(b, run, queue), id);
  }

  /** An idle session opens the run submitted at once: it starts, compacts if its history calls for it,
      and waits at its first gate, in the session's slot. */
  lemma {:induction false} SubmitOpens(b: Book, cfg: Config, q: Submission)
    requires Inv(b) && b.active.None? && Submittable(b, cfg, q)
    ensures var id, total, b' := b.ids, b.history + q.tokens, Apply(b, cfg, Submit(q));
      && SubmitRefusal(b, cfg, q).None? && id !in b.runs && id in b'.runs && b.log <= b'.log
      && b'.active == Some(id) && b'.reserved.None? && !b'.runs[id].terminal && b'.runs[id].started
      && (exists ks :: CompactsAt(total, b.threshold, ks)
            && Script(b', id) == [RunStarted] + ks + FirstGate(q.controls.value, cfg.providesTools))
      && b'.history == if total < 8192 && total < b.threshold then total else 8
  {
    hide Inv, AdmitBook, Enlisted, OpeningReason, OpeningScript, Script, CompactsAt;
    var id, run, queue := b.ids, SubmittedRun(b, cfg, q), q.delivery.AsQueue?;
    AdmittedOpens(b, run, queue);
    AdmitOpens(b, run, queue);
    var b1 := Enlisted(b, run, queue);
    var c :| Script(AdmitBook(b, run, queue), id) == OpeningScript(b1.runs[id], OpeningReason(b1, id), c);
    SubmittedScript(b1, id, q.tokens, q.controls.value, cfg.providesTools, c);
    SlotOpen(AdmitBook(b, run, queue), id);
    StartedAlone(b, run, queue);
  }

  lemma {:induction false} StartedAlone(b: Book, run: Run, queue: bool)
    requires Inv(b) && !b.closed && b.active.None? && NewDraft(run)
    ensures AdmitBook(b, run, queue).reserved.None?
  {
    hide Inv, Opened, Unbegun, NewDraft, Waiting, Sound;
    IdleAdmits(b, run, queue);
    OpenedKeeps(Enlisted(b, run, queue), b.ids);
  }

  lemma {:induction false} SlotOpen(b: Book, id: nat)
    requires Inv(b) && b.active == Some(id)
    ensures id in b.runs && !b.runs[id].terminal && b.runs[id].started
  {
    hide RunsSound, LogSound, StreamsSound, SteersSound, OrderSound, SteadyAt;
  }

  /** An idle session has no run waiting, and a run it enlists has not begun. */
  lemma {:induction false} IdleAdmits(b: Book, run: Run, queue: bool)
    requires Inv(b) && b.active.None? && NewDraft(run)
    ensures b.reserved.None? && !Live(b, b.active) && Unbegun(Enlisted(b, run, queue), b.ids)
  {
    hide RunsSound, LogSound, StreamsSound, SteersSound, OrderSound, SteadyAt;
    EnlistedSound(b, run, queue);
    DraftUnbegun(Enlisted(b, run, queue), b.ids);
  }

  lemma {:induction false} SubmittedScript(b: Book, id: nat, tokens: nat, callsTool: bool, provided: bool, c: nat)
    requires id in b.runs
    requires var run := b.runs[id];
      !run.compaction && run.input == tokens && run.callsTool == callsTool && (callsTool ==> (run.callID != 0) == provided)
    ensures var total := b.history + tokens;
      exists ks :: CompactsAt(total, b.threshold, ks)
        && OpeningScript(b.runs[id], OpeningReason(b, id), c) == [RunStarted] + ks + FirstGate(callsTool, provided)
    ensures OpeningReason(b, id).None? <==> b.history + tokens < 8192 && b.history + tokens < b.threshold
  {
    var run, reason := b.runs[id], OpeningReason(b, id);
    var ks := match reason
      case None => []
      case Some(r) => [CompactionStarted(c, r), CompactionEnded(c, OutcomeCompleted, false)];
    assert CompactsAt(b.history + tokens, b.threshold, ks);
    assert AskedScript(run) == FirstGate(callsTool, provided);
    assert OpeningScript(run, reason, c) == [RunStarted] + ks + FirstGate(callsTool, provided);
  }

  /** A session with one run under way keeps the next submitted waiting, and publishes nothing. */
  lemma {:induction false} SubmitWaits(b: Book, cfg: Config, q: Submission)
    requires Inv(b) && b.active.Some? && b.reserved.None? && Submittable(b, cfg, q)
    ensures var id, b' := b.ids, Apply(b, cfg, Submit(q));
      && SubmitRefusal(b, cfg, q).None? && id !in b.runs && id in b'.runs && b'.log == b.log && b'.history == b.history
      && b'.active == b.active && b'.reserved == Some(id) && !b'.runs[id].started && b'.runs[id].status.Queued?
  {
    hide RunsSound, LogSound, StreamsSound, SteersSound, OrderSound, SteadyAt, Opened;
    AdmitKeeps(b, SubmittedRun(b, cfg, q), q.delivery.AsQueue?);
  }

  /** A submission is taken if and only if it is in order and not both slots are held; one that is not
      changes nothing. */
  lemma {:induction false} SubmitTaken(b: Book, cfg: Config, q: Submission)
    requires Inv(b) && !q.delivery.AsSteer?
    ensures var refusal := SubmitRefusal(b, cfg, q);
      && (refusal.None? <==> Submittable(b, cfg, q) && (b.active.None? || b.reserved.None?))
      && (Submittable(b, cfg, q) && b.active.Some? && b.reserved.Some? ==> refusal == Some(RunActive))
      && (refusal.Some? ==> Apply(b, cfg, Submit(q)) == b)
  {
    hide Inv, AdmitBook;
    SlotStates(b);
  }

  /** An idle session compacts at once when it is asked to: the run starts, holds the compaction, and goes
      on to its input if it is to continue; otherwise it completes there. The history is then the summary. */
  lemma {:induction false} CompactOpens(b: Book, cfg: Config, q: Compaction)
    requires Inv(b) && b.active.None? && !b.closed && q.sessionID == cfg.sessionID != "" && (q.delivery.Auto? || q.delivery.AsQueue?)
    ensures var id, b' := b.ids, Apply(b, cfg, Compact(q));
      && CompactRefusal(b, cfg, q).None? && id !in b.runs && id in b'.runs && b.log <= b'.log
      && b'.history == (if q.focus == 0 then 8 else (52 + q.focus) / 4)
      && exists c :: Script(b', id) ==
           [RunStarted, CompactionStarted(c, Requested), CompactionEnded(c, OutcomeCompleted, false)]
           + if q.continues then [ContentDelta, InputRequested, StatusUpdated(WaitingForInput)] else [RunCompleted("compacted")]
  {
    hide Inv, AdmitBook, Enlisted, OpeningScript, Script;
    var id, run, queue := b.ids, CompactingRun(b, q), q.delivery.AsQueue?;
    AdmittedOpens(b, run, queue);
    var b1 := Enlisted(b, run, queue);
    var c :| Script(AdmitBook(b, run, queue), id) == OpeningScript(b1.runs[id], OpeningReason(b1, id), c);
    CompactedScript(b1.runs[id], c);
  }

  lemma {:induction false} CompactedScript(run: Run, c: nat)
    requires run.compaction && !run.callsTool
    ensures OpeningScript(run, Some(Requested), c) ==
      [RunStarted, CompactionStarted(c, Requested), CompactionEnded(c, OutcomeCompleted, false)]
      + if run.compactContinue then [ContentDelta, InputRequested, StatusUpdated(WaitingForInput)] else [RunCompleted("compacted")]
  {
  }

  /** Guidance for the run under way, named or not, is held by it, and publishes nothing; any other
      target is refused with what is wrong with it. */
  lemma {:induction false} SteerAnswered(b: Book, cfg: Config, q: Submission)
    requires Inv(b) && !b.closed && q.delivery.AsSteer? && q.sessionID == cfg.sessionID != "" && q.messages > 0 && !q.steerControls
    ensures var refusal, b' := SteerRefusal(b, cfg, q), Apply(b, cfg, Submit(q));
      if b.active.Some? && (q.target == 0 || q.target == b.active.value) then
        var id := b.active.value;
        && refusal.None? && id in b.runs && id in b'.runs && b'.log == b.log
        && b'.runs[id].steers == b.runs[id].steers + [Steer(b.ids, q.envelope)]
        && b'.answers == b.answers[b.ids := Answer(id, |OfRun(b.log, id)|)]
      else
        && b' == b && refusal.Some? && refusal.value.SteerRefused?
        && (q.target == 0 ==> refusal.value.reason.NoActiveRun?)
        && (q.target != 0 && q.target !in b.runs ==> refusal.value.reason.UnknownTarget?)
        && (q.target != 0 && q.target in b.runs ==>
              && refusal.value.sequence == Some(|OfRun(b.log, q.target)|)
              && refusal.value.reason == if b.runs[q.target].terminal then TargetTerminal else TargetQueued)
  {
    hide Inv, OfRun;
    SteerTargeted(b, q.target);
    if q.target in b.runs {
      LoggedLength(b, q.target);
    }
    if b.active.Some? {
      LoggedLength(b, b.active.value);
    }
    hide SteerTarget;
  }

  /** Where guidance goes. */
  lemma {:induction false} SteerTargeted(b: Book, target: nat)
    requires Inv(b)
    ensures b.active.Some? ==> b.active.value in b.runs
    ensures SteerTarget(b, target) ==
      if b.active.Some? && (target == 0 || target == b.active.value) then Aim(b.active.value)
      else if target == 0 then Miss(NoActiveRun, None)
      else if target !in b.runs then Miss(UnknownTarget, None)
      else Miss(if b.runs[target].terminal then TargetTerminal else TargetQueued, Some(target))
  {
    hide Inv;
    SlotStates(b);
  }

  lemma {:induction false} LoggedLength(b: Book, id: nat)
    requires Inv(b) && id in b.runs
    ensures b.runs[id].nextSequence == |OfRun(b.log, id)| + 1
  {
    hide Inv, OfRun, Sound;
    InvIsSound(b);
    KnownRun(b, id);
    InvLogged(b, id);
    LoggedKnown(b, id);
  }

  /** Every unsettled run is in a slot: the started one in the first, the other behind it. */
  lemma {:induction false} SlotStates(b: Book)
    requires Inv(b)
    ensures b.active.Some? ==>
      b.active.value in b.runs && b.runs[b.active.value].started && !b.runs[b.active.value].terminal
      && !b.runs[b.active.value].status.Cancelling? && b.active.value != 0
    ensures b.reserved.Some? ==>
      b.active.Some? && b.reserved.value in b.runs && !b.runs[b.reserved.value].started && !b.runs[b.reserved.value].terminal
    ensures forall id | id in b.runs && !b.runs[id].terminal :: b.active == Some(id) || b.reserved == Some(id)
    ensures forall id | id in b.runs && !b.runs[id].terminal :: !b.runs[id].status.Cancelling?
  {
    hide RunSound, LogSound, StreamsSound, SteersSound, OrderSound, Agrees, Calm;
    forall id | id in b.runs && !b.runs[id].terminal
      ensures !b.runs[id].status.Cancelling?
    {
      assert SteadyAt(b, id);
    }
  }

  // ------------------------------------------------------------ resuming

  /** The oldest sequence of a run the journal holds, or 0 when it holds none. */
  ghost predicate OldestHeld(b: Book, capacity: nat, id: nat, oldest: nat) {
    var trace, journal := OfRun(b.log, id), Tail(b.log, capacity);
    if oldest == 0 then forall e | e in trace :: e !in journal
    else oldest <= |trace| && forall i | 0 <= i < |trace| :: trace[i] in journal <==> oldest <= i + 1
  }

  /** One stream more, with a suffix of a run, ended if and only if the run has settled. */
  ghost predicate Attached(b: Book, b': Book, id: nat, after: nat, suffix: seq<Event>) {
    && id in b.runs && b'.log == b.log
    && exists k: nat :: k !in b.streams && b'.streams == b.streams[k := Stream(id, after, suffix, b.runs[id].terminal)]
  }

  /** A resume of a run of an open session at a cursor not past its end is answered by a gap if and only if
      the event past the cursor was published and has been evicted; otherwise it replays exactly the
      events past the cursor, on one more stream. */
  lemma {:induction false} ResumeAnswered(b: Book, cfg: Config, id: nat, after: nat)
    requires Inv(b) && !b.closed && id in b.runs && after <= |OfRun(b.log, id)|
    ensures var trace, journal := OfRun(b.log, id), Tail(b.log, cfg.capacity);
      var r, b' := RecoveryOf(b, OfRun(journal, id), id, after), Apply(b, cfg, Resume(id, after));
      if after < |trace| && trace[after] !in journal then
        r.Gap? && r.latest == |trace| && OldestHeld(b, cfg.capacity, id, r.oldest) && b' == b
      else
        && r == (if after < |trace| then Replayed(after + 1, |trace|) else Replayed(after, after))
        && Attached(b, b', id, after, trace[after..])
  {
    hide Inv, Sound, Tail, OfRun, Past, Attached, OldestHeld;
    var trace, held := OfRun(b.log, id), OfRun(Tail(b.log, cfg.capacity), id);
    InvIsSound(b);
    LoggedLength(b, id);
    InvLogged(b, id);
    LoggedKnown(b, id);
    KnownRun(b, id);
    GapExactly(b, cfg.capacity, id, after);
    NumberedTrace(b, id);
    if after < |trace| && trace[after] !in Tail(b.log, cfg.capacity) {
      OldestIs(b, cfg.capacity, id);
    } else {
      AttachedNow(b, id, after, trace[after..]);
    }
  }

  lemma {:induction false} NumberedTrace(b: Book, id: nat)
    requires Sound(b) && id in b.runs && id in b.traces && OfRun(b.log, id) == b.traces[id]
    ensures Numbered(id, OfRun(b.log, id))
  {
    hide LogSound, StreamsSound, SteersSound, SlotsSound, OrderSound, Agrees, OfRun;
  }

  lemma {:induction false} OldestIs(b: Book, capacity: nat, id: nat)
    requires Numbered(id, OfRun(b.log, id))
    ensures OldestHeld(b, capacity, id, Oldest(OfRun(Tail(b.log, capacity), id)))
  {
    hide Tail, OfRun;
    var m := HeldIsSuffix(b.log, capacity, id);
    var trace := OfRun(b.log, id);
    if m < |trace| {
      assert trace[m..][0] == trace[m];
    }
  }

  lemma {:induction false} AttachedNow(b: Book, id: nat, after: nat, suffix: seq<Event>)
    requires Sound(b) && id in b.runs
    ensures Attached(b, JoinedTo(b, id, after, suffix), id, after, suffix)
  {
    hide RunsSound, LogSound, StreamsSound, SteersSound, SlotsSound, OrderSound;
    assert b.feeds !in b.streams;
  }

  /** A resume is refused of a closed session, of a run it does not know and past a run's end. */
  lemma {:induction false} ResumeRefusals(b: Book, cfg: Config, id: nat, after: nat)
    requires Inv(b) && (b.closed || id !in b.runs || after > |OfRun(b.log, id)|)
    ensures RecoveryOf(b, OfRun(Tail(b.log, cfg.capacity), id), id, after) ==
      ResumeRefused(if b.closed then SessionClosed else if id !in b.runs then RunNotFound else ReplayCursorFuture)
    ensures Apply(b, cfg, Resume(id, after)) == b
  {
    hide Inv, Tail, OfRun, Past;
    if id in b.runs {
      LoggedLength(b, id);
    }
  }

  // ------------------------------------------------------------ closing and settings

  /** Closing closes the session if and only if every run has settled, and changes nothing else. */
  lemma {:induction false} CloseAnswered(b: Book, cfg: Config)
    requires Inv(b) && !b.closed
    ensures var b' := Apply(b, cfg, Close);
      b' == b.(closed := b'.closed) && (b'.closed <==> forall id | id in b.runs :: b.runs[id].terminal)
    ensures CloseRefused(b) <==> !Apply(b, cfg, Close).closed
  {
    hide Inv;
    SlotStates(b);
  }

  /** A policy is set if and only if it is a valid one for this session, and open: a share of the 8192-token
      window, a count, four fifths of the window, or never. */
  lemma {:induction false} SettingsAnswered(b: Book, cfg: Config, sessionID: string, policy: Option<Policy>)
    ensures var refusal, b' := SettingsRefusal(b, cfg, sessionID, policy), Apply(b, cfg, Settings(sessionID, policy));
      && b' == b.(threshold := b'.threshold)
      && (refusal.None? ==> match policy
            case None => b'.threshold == 6553
            case Some(PolicyAuto) => b'.threshold == 6553
            case Some(PolicyOff) => b'.threshold == 0xFFFF_FFFF_FFFF_FFFF
            case Some(PolicyShare(p)) => 1 <= p <= 100 && b'.threshold == 8192 * p / 100
            case Some(PolicyTokens(n)) => 1 <= n && b'.threshold == n)
      && (refusal.Some? ==> b' == b)
      && (refusal == Some(UnsupportedControl) <==> policy.Some? && match policy.value
            case PolicyShare(p) => p < 1 || p > 100
            case PolicyTokens(n) => n < 1
            case _ => false)
      && (refusal.None? ==> !b.closed && sessionID == cfg.sessionID)
      && (refusal.Some? && refusal.value != UnsupportedControl ==>
            refusal.value == if b.closed then SessionClosed else InvalidSubmission)
  {
  }

  // ------------------------------------------------------------ the reported state

  /** The interaction a run's events leave open, if any. */
  ghost function Pending(b: Book, id: nat): nat
    requires id in b.runs
  {
    if Awaits(b, id, StagePermission) then b.runs[id].permissionID
    else if Awaits(b, id, StageInput) then b.runs[id].inputID
    else if Awaits(b, id, StageCall) then b.runs[id].callID
    else 0
  }

  /** A reported run: how far its events go, its place in the queue, and what it waits for. */
  ghost predicate EntryTold(b: Book, e: Entry) {
    && e.runID in b.runs
    && var run := b.runs[e.runID];
       && e.asOf == |OfRun(b.log, e.runID)| && e.pending == Pending(b, e.runID)
       && e.steers == run.steers && e.admitted == run.admittedSteers
       && (if run.started then e.position == 0 && e.status == run.status else e.position == 1 && e.status == Queued)
       && (e.acknowledged <==> Awaits(b, e.runID, StageCall) && CallRuns(b, e.runID))
  }

  lemma {:induction false} PendingIs(b: Book, id: nat)
    requires Inv(b) && id in b.runs
    ensures b.runs[id].pending == Pending(b, id)
  {
    hide Inv, Kinds, OfRun, TrackOf, Draft, Script, Calm, Steady;
    SteadyOf(b, id);
  }

  /** The settlements of a log, in order. */
  function SettledOf(log: seq<Event>): seq<SettledRun> {
    if log == [] then []
    else
      var e := log[|log| - 1];
      SettledOf(log[..|log| - 1]) + if Terminal(e.kind) then [SettledRun(e.run, e.sequence)] else []
  }

  /** Events are told apart by ids that increase as they are published. */
  ghost predicate Identified(b: Book) {
    && (forall i | 0 <= i < |b.log| :: 0 < b.log[i].id < b.ids)
    && forall i, j | 0 <= i < j < |b.log| :: b.log[i].id < b.log[j].id
  }

  /** A call's settlement is the event that ended it. */
  ghost predicate SettlementNamed(b: Book, id: nat)
    requires id in b.runs
  {
    b.runs[id].settlementID != 0 ==>
      exists e :: e in b.log && e.run == id && e.id == b.runs[id].settlementID && EndsCall(e.kind)
  }

  ghost predicate SettlementsNamed(b: Book) {
    forall id | id in b.runs :: SettlementNamed(b, id)
  }

  /** What the reported state needs besides the invariant: the settlements are those of the log, a run's
      interactions are told apart, and a run waits only if it was admitted to wait; and what is said of ids. */
  ghost predicate Reportable(b: Book) {
    && b.settledRuns == SettledOf(b.log) && (forall id | id in b.runs :: Apart(b.runs[id]))
    && Identified(b) && SettlementsNamed(b)
    && (b.reserved.Some? ==> b.reserved.value in b.runs && b.runs[b.reserved.value].queuedAdmission)
  }

  lemma {:induction false} SettledSnoc(log: seq<Event>, e: Event)
    ensures SettledOf(log + [e]) == SettledOf(log) + if Terminal(e.kind) then [SettledRun(e.run, e.sequence)] else []
  {
    assert (log + [e])[..|log|] == log;
  }

  lemma {:induction false} PublishedIdentified(b: Book, id: nat, k: Kind)
    requires Identified(b) && b.ids > 0 && id in b.runs && id in b.traces
    ensures Identified(Published(b, id, k))
  {
    hide Delivered, SettledAfter, RunAfter, SlotsAfter;
    var log := b.log + [EventOf(b, id, k)];
    assert forall i | 0 <= i < |b.log| :: log[i] == b.log[i];
  }

  lemma {:induction false} PublishedNamed(b: Book, id: nat, k: Kind)
    requires SettlementsNamed(b) && b.ids > 0 && id in b.runs && id in b.traces
    ensures SettlementsNamed(Published(b, id, k))
  {
    hide Delivered, SettledAfter, SlotsAfter, PendingAfter, Without;
    var e, b' := EventOf(b, id, k), Published(b, id, k);
    assert e in b'.log && forall x | x in b.log :: x in b'.log;
    forall o | o in b'.runs
      ensures SettlementNamed(b', o)
    {
      assert SettlementNamed(b, o);
    }
  }

  lemma {:induction false} PublishedRuns(b: Book, id: nat, k: Kind)
    requires id in b.runs && id in b.traces && (forall o | o in b.runs :: Apart(b.runs[o]))
    requires b.reserved.Some? ==> b.reserved.value in b.runs && b.runs[b.reserved.value].queuedAdmission
    ensures var b' := Published(b, id, k);
      && (forall o | o in b'.runs :: Apart(b'.runs[o]))
      && (b'.reserved.Some? ==> b'.reserved.value in b'.runs && b'.runs[b'.reserved.value].queuedAdmission)
  {
    hide Delivered, SettledAfter, PendingAfter, SettlementAfter, Without, Terminal, StatusAfter;
  }

  lemma {:induction false} PublishedSettlements(b: Book, id: nat, k: Kind)
    requires id in b.runs && id in b.traces && b.settledRuns == SettledOf(b.log)
    ensures Published(b, id, k).settledRuns == SettledOf(Published(b, id, k).log)
  {
    hide Delivered, SettledAfter, RunAfter, SettledOf, SlotsAfter, Terminal;
    SettledSnoc(b.log, EventOf(b, id, k));
  }

  lemma {:induction false} PublishedReportable(b: Book, id: nat, k: Kind)
    requires Reportable(b) && b.ids > 0 && id in b.runs && id in b.traces
    ensures Reportable(Published(b, id, k))
  {
    hide Published, SettledOf, Identified, SettlementsNamed, Apart;
    PublishedIdentified(b, id, k);
    PublishedNamed(b, id, k);
    PublishedRuns(b, id, k);
    PublishedSettlements(b, id, k);
  }

  lemma {:induction false} PositiveIds(b: Book)
    requires Sound(b)
    ensures b.ids > 0
  {
  }

  /** A change that publishes nothing, draws ids at most, and leaves the runs' interactions alone. */
  lemma {:induction false} UnpublishedReportable(b: Book, b': Book)
    requires b'.log == b.log && b'.settledRuns == b.settledRuns && b'.ids >= b.ids && Reportable(b)
    requires forall id | id in b'.runs ::
      if id in b.runs then b'.runs[id].settlementID == b.runs[id].settlementID && (Apart(b.runs[id]) ==> Apart(b'.runs[id]))
      else b'.runs[id].settlementID == 0 && Apart(b'.runs[id])
    requires b'.reserved.Some? ==>
      && b'.reserved.value in b'.runs
      && (b'.runs[b'.reserved.value].queuedAdmission
          || (b'.reserved == b.reserved && b.reserved.value in b.runs
              && b'.runs[b'.reserved.value].queuedAdmission == b.runs[b.reserved.value].queuedAdmission))
    ensures Reportable(b')
  {
    hide SettledOf, Apart;
    forall id | id in b'.runs
      ensures SettlementNamed(b', id)
    {
      if id in b.runs {
        assert SettlementNamed(b, id);
      }
    }
  }

  lemma {:induction false} PutReportable(b: Book, id: nat, f: Changes.Fields)
    requires Reportable(b) && id in b.runs
    ensures Reportable(Put(b, id, Changes.WithFields(b.runs[id], f)))
  {
    assert b.reserved.Some? ==> b.reserved.value in b.runs;
    hide Reportable;
    UnpublishedReportable(b, Put(b, id, Changes.WithFields(b.runs[id], f)));
  }

  lemma {:induction false} EnlistedReportable(b: Book, run: Run, queue: bool)
    requires Reportable(b) && NewDraft(run) && b.ids !in b.runs
    ensures Reportable(Enlisted(b, run, queue))
  {
    assert b.reserved.Some? ==> b.reserved.value in b.runs;
    hide Reportable, Draft;
    UnpublishedReportable(b, Enlisted(b, run, queue));
  }

  lemma {:induction false} SteeredReportable(b: Book, id: nat, envelope: nat)
    requires Reportable(b) && id in b.runs && b.runs[id].nextSequence > 0
    ensures Reportable(SteeredBook(b, id, envelope))
  {
    assert b.reserved.Some? ==> b.reserved.value in b.runs;
    hide Reportable;
    UnpublishedReportable(b, SteeredBook(b, id, envelope));
  }

  lemma {:induction false} PlainReportable(b: Book, b': Book)
    requires Reportable(b) && b'.ids >= b.ids
    requires b' == b.(ids := b'.ids, history := b'.history, threshold := b'.threshold, closed := b'.closed)
    ensures Reportable(b')
  {
    assert b.reserved.Some? ==> b.reserved.value in b.runs;
    hide Reportable;
    UnpublishedReportable(b, b');
  }

  lemma {:induction false} ChangedReportable(b: Book, c: Changes.Change)
    requires Sound(b) && Reportable(b) && Changes.Allowed(b, c)
    ensures Reportable(Changes.Changed(b, c))
  {
    PositiveIds(b);
    NotYet(b);
    hide Sound, Reportable, Published, Put, Enlisted, SteeredBook, NewDraft;
    match c {
      case OnePublished(id, k) => PublishedReportable(b, id, k);
      case FieldsSet(id, f) => PutReportable(b, id, f);
      case RunEnlisted(run, queue) => EnlistedReportable(b, run, queue);
      case SteerHeld(id, envelope) => SteeredReportable(b, id, envelope);
      case _ => PlainReportable(b, Changes.Changed(b, c));
    }
  }

  lemma {:induction false} ChangesReportable(b: Book, cs: seq<Changes.Change>)
    requires Sound(b) && Reportable(b) && Changes.ChangedAll(b, cs).Some?
    ensures var b' := Changes.ChangedAll(b, cs).value; Sound(b') && Reportable(b')
    decreases |cs|
  {
    hide Sound, Reportable, Changes.Allowed, Changes.Changed;
    if cs != [] {
      ChangesReportable(b, cs[..|cs| - 1]);
      var m := Changes.ChangedAll(b, cs[..|cs| - 1]).value;
      ChangedReportable(m, cs[|cs| - 1]);
      Changes.ChangeSound(m, cs[|cs| - 1]);
    }
  }

  lemma {:induction false} SameReportable(b: Book, m: Book)
    requires Changes.Same(b, m) && Reportable(b)
    ensures Reportable(m)
  {
    hide SettledOf;
  }

  lemma {:induction false} EveryHistoryReportable(threshold: nat, cfg: Config, ops: seq<Op>, n: nat)
    requires OrderlyAll(threshold, cfg, ops) && n <= |ops|
    ensures Inv(After(threshold, cfg, ops[..n])) && Reportable(After(threshold, cfg, ops[..n]))
  {
    hide Inv, Apply, Orderly, Reportable, Changes.Same, Changes.ChangedAll;
    OrderlyKeeps(threshold, cfg, ops, n);
    if n == 0 {
      NewReportable(threshold);
    } else {
      EveryHistoryReportable(threshold, cfg, ops, n - 1);
      AfterNext(threshold, cfg, ops, n - 1);
      var b, op := After(threshold, cfg, ops[..n - 1]), ops[n - 1];
      Changes.ApplyReached(b, cfg, op);
      InvIsSound(b);
      if op.Resume? {
        SameReportable(b, Apply(b, cfg, op));
      } else {
        var cs :| Changes.ChangedAll(b, cs) == Some(Apply(b, cfg, op));
        ChangesReportable(b, cs);
      }
    }
  }

  lemma {:induction false} NewReportable(threshold: nat)
    ensures Reportable(Empty(threshold))
  {
  }

  ghost predicate EntriesTold(b: Book, entries: seq<Entry>) {
    forall e | e in entries :: EntryTold(b, e)
  }

  lemma {:induction false} TwoTold(b: Book, e: Entry, f: Entry)
    requires EntryTold(b, e)
    ensures EntriesTold(b, [e] + []) && (EntryTold(b, f) ==> EntriesTold(b, [e] + [f]))
  {
    hide EntryTold;
  }

  /** What a session reports. */
  ghost predicate StateTold(b: Book) {
    var s := Snapshot(b.active, b.reserved, b.runs, b.settledRuns);
    && s.settled == SettledOf(b.log) && EntriesTold(b, s.entries)
    && (if forall id | id in b.runs :: b.runs[id].terminal then s.status == Idle && s.activeRun == 0 && s.entries == []
        else
          && b.active.Some? && s.activeRun == b.active.value && s.activeRun in b.runs && b.runs[s.activeRun].started
          && !b.runs[s.activeRun].terminal
          && s.status == SessionWaiting && Pending(b, s.activeRun) != 0)
  }

  lemma {:induction false} EntryTells(b: Book, id: nat, position: nat)
    requires Inv(b) && Reportable(b) && id in b.runs && !b.runs[id].terminal
    requires b.runs[id].started == (b.reserved != Some(id)) && position == (if b.runs[id].started then 0 else 1)
    ensures EntryTold(b, EntryOf(id, b.runs[id], position))
    ensures b.runs[id].started ==> Pending(b, id) != 0
  {
    hide Inv, Reportable, OfRun, Script, Kinds, Agrees, Calm, Draft, Awaits, Pending, TrackOf;
    LoggedLength(b, id);
    PendingIs(b, id);
    ReportableRun(b, id);
    EntryPending(b, id);
  }

  lemma {:induction false} ReportableRun(b: Book, id: nat)
    requires Reportable(b) && id in b.runs
    ensures Apart(b.runs[id]) && (b.reserved == Some(id) ==> b.runs[id].queuedAdmission)
  {
  }

  /** What is open in a run's events, beside the run's own fields. */
  lemma {:induction false} EntryPending(b: Book, id: nat)
    requires Inv(b) && id in b.runs && Apart(b.runs[id]) && !b.runs[id].terminal
    ensures var run := b.runs[id];
      run.acknowledged && run.pending != 0 && run.pending == run.callID <==> Awaits(b, id, StageCall) && CallRuns(b, id)
    ensures b.runs[id].started ==> Pending(b, id) != 0
  {
    hide Inv, OfRun, Script, Kinds, Agrees, Calm, TrackOf;
    SteadyOf(b, id);
    PendingIs(b, id);
    if b.runs[id].started {
      StageAwaited(b, id);
      if b.runs[id].stage.StageCall? {
        RunsAcknowledged(b, id);
      }
      OneAwaited(b, id);
    } else {
      SettledStage(b.runs[id], b.traces[id], StageCall);
      SettledStage(b.runs[id], b.traces[id], StagePermission);
      SettledStage(b.runs[id], b.traces[id], StageInput);
    }
  }

  lemma {:induction false} OneAwaited(b: Book, id: nat)
    requires Inv(b) && id in b.runs && b.runs[id].started && !b.runs[id].terminal
    ensures forall stage | Awaits(b, id, stage) :: stage == b.runs[id].stage
  {
    hide Inv, Awaits;
    forall stage | Awaits(b, id, stage)
      ensures stage == b.runs[id].stage
    {
      AwaitsStage(b, id, stage);
    }
  }

  lemma {:induction false} SlotEntries(a: nat, r: nat, runs: map<nat, Run>)
    requires a in runs && !ReservationOf(runs[a])
    ensures EntriesOf([a], runs, 0) == [EntryOf(a, runs[a], 0)]
    ensures r in runs && ReservationOf(runs[r]) ==> EntriesOf([a, r], runs, 0) == [EntryOf(a, runs[a], 0), EntryOf(r, runs[r], 1)]
  {
    assert [a][1..] == [] && [a, r][1..] == [r] && [r][1..] == [];
    hide EntryOf;
  }

  lemma {:induction false} PendingShows(b: Book, id: nat)
    requires Inv(b) && id in b.runs
    ensures b.runs[id].answered && b.runs[id].pending == Pending(b, id)
  {
    hide Inv, Pending;
    PendingIs(b, id);
    KnownAt(b, id);
  }

  /** The state reported with a run under way, alone or with another waiting. */
  lemma {:induction false} SnapshotIs(id: nat, reserved: Option<nat>, runs: map<nat, Run>, settled: seq<SettledRun>)
    requires id in runs && id != 0 && runs[id].started && !runs[id].terminal && runs[id].answered && runs[id].pending != 0
    requires reserved.Some? ==>
      var r := reserved.value;
      r in runs && !runs[r].started && runs[r].queuedAdmission && !runs[r].terminal && runs[r].answered
    ensures Snapshot(Some(id), reserved, runs, settled) ==
      SessionState(SessionWaiting, id,
        [EntryOf(id, runs[id], 0)] + (if reserved.Some? then [EntryOf(reserved.value, runs[reserved.value], 1)] else []), settled)
  {
    hide EntryOf, EntriesOf;
    if reserved.Some? {
      SlotEntries(id, reserved.value, runs);
      assert [id] + [reserved.value] == [id, reserved.value];
    } else {
      SlotEntries(id, id, runs);
      assert [id] + [] == [id];
    }
  }

  lemma {:induction false} ActiveTells(b: Book, id: nat)
    requires Inv(b) && Reportable(b) && b.active == Some(id)
    ensures id in b.runs && id != 0 && b.runs[id].started && !b.runs[id].terminal && b.runs[id].answered
    ensures b.runs[id].pending == Pending(b, id) != 0 && EntryTold(b, EntryOf(id, b.runs[id], 0))
  {
    hide Inv, OfRun, Script, Kinds, Awaits, Pending, EntryTold, EntryOf, SettledOf, Reportable;
    SlotStates(b);
    PendingShows(b, id);
    EntryTells(b, id, 0);
  }

  lemma {:induction false} WaitingTells(b: Book, id: nat)
    requires Inv(b) && Reportable(b) && b.reserved == Some(id)
    ensures id in b.runs && !b.runs[id].started && b.runs[id].queuedAdmission && !b.runs[id].terminal && b.runs[id].answered
    ensures EntryTold(b, EntryOf(id, b.runs[id], 1))
  {
    hide Inv, OfRun, Script, Kinds, Awaits, Pending, EntryTold, EntryOf, SettledOf, Reportable;
    SlotStates(b);
    PendingShows(b, id);
    ReportableRun(b, id);
    EntryTells(b, id, 1);
  }

  lemma {:induction false} SnapshotBusy(b: Book, id: nat)
    requires Inv(b) && Reportable(b) && b.active == Some(id)
    ensures StateTold(b)
  {
    SettlementsReported(b);
    hide Inv, OfRun, Script, Kinds, Awaits, Pending, EntryTold, EntriesTold, EntryOf, Snapshot, SettledOf, Reportable;
    ActiveTells(b, id);
    var e := EntryOf(id, b.runs[id], 0);
    if b.reserved.Some? {
      WaitingTells(b, b.reserved.value);
      TwoTold(b, e, EntryOf(b.reserved.value, b.runs[b.reserved.value], 1));
    } else {
      TwoTold(b, e, e);
    }
    SnapshotIs(id, b.reserved, b.runs, b.settledRuns);
  }

  lemma {:induction false} SnapshotTells(b: Book)
    requires Inv(b) && Reportable(b)
    ensures StateTold(b)
  {
    if b.active.Some? {
      hide Inv, Reportable, StateTold;
      SnapshotBusy(b, b.active.value);
    } else {
      SettlementsReported(b);
      hide Inv, OfRun, Script, EntryTold, SettledOf, Reportable;
      SlotStates(b);
      NoEntries(b.runs);
    }
  }

  lemma {:induction false} NoEntries(runs: map<nat, Run>)
    ensures EntriesOf([], runs, 0) == []
  {
  }

  lemma {:induction false} SettlementsReported(b: Book)
    requires Reportable(b)
    ensures b.settledRuns == SettledOf(b.log)
  {
  }

  /** After every prefix of a history with no premature call answer, the session reports itself idle if and
      only if every run has settled, and otherwise as waiting on the run under way; each unsettled run with
      how far its events go, its place, and what its events leave open; and the settlements in order. */
  lemma {:induction false} EveryStateTold(threshold: nat, cfg: Config, ops: seq<Op>, n: nat)
    requires OrderlyAll(threshold, cfg, ops) && n <= |ops|
    ensures StateTold(After(threshold, cfg, ops[..n]))
  {
    hide Inv, Reportable, StateTold, After;
    EveryHistoryReportable(threshold, cfg, ops, n);
    SnapshotTells(After(threshold, cfg, ops[..n]));
  }

  // ------------------------------------------------------------ admission, answered

  /** Streams stay what they were opened as. */
  ghost predicate StreamsStay(b: Book, b': Book) {
    forall k | k in b.streams :: k in b'.streams && b'.streams[k].run == b.streams[k].run && b'.streams[k].after == b.streams[k].after
  }

  lemma {:induction false} PublishedStreams(b: Book, id: nat, k: Kind)
    requires id in b.runs && id in b.traces
    ensures StreamsStay(b, Published(b, id, k))
  {
    hide RunAfter, SettledAfter, SlotsAfter;
  }

  lemma {:induction false} StreamsSame(b: Book, b': Book)
    requires b'.streams == b.streams
    ensures StreamsStay(b, b')
  {
  }

  lemma {:induction false} EnlistedStay(b: Book, run: Run, queue: bool)
    requires b.feeds !in b.streams
    ensures StreamsStay(b, Enlisted(b, run, queue))
  {
    hide Live;
  }

  lemma {:induction false} MayKnow(b: Book, id: nat, k: Kind)
    requires MayPublish(b, id, k)
    ensures id in b.runs && id in b.traces
  {
  }

  lemma {:induction false} SteeredStreamsSame(b: Book, id: nat, envelope: nat)
    requires id in b.runs && b.runs[id].nextSequence > 0
    ensures StreamsStay(b, SteeredBook(b, id, envelope))
  {
  }

  lemma {:induction false} PutStreamsSame(b: Book, id: nat, run: Run)
    requires id in b.runs
    ensures StreamsStay(b, Put(b, id, run))
  {
  }

  lemma {:induction false} ChangedStreams(b: Book, c: Changes.Change)
    requires Sound(b) && Changes.Allowed(b, c)
    ensures StreamsStay(b, Changes.Changed(b, c))
  {
    hide Sound, Published, Live, NewDraft, MayPublish, StreamsStay, Enlisted, SteeredBook, Put;
    FeedsFree(b);
    match c {
      case OnePublished(id, k) =>
        MayKnow(b, id, k);
        PublishedStreams(b, id, k);
      case SteerHeld(id, envelope) => SteeredStreamsSame(b, id, envelope);
      case FieldsSet(id, f) => PutStreamsSame(b, id, Changes.WithFields(b.runs[id], f));
      case RunEnlisted(run, queue) => EnlistedStay(b, run, queue);
      case _ => StreamsSame(b, Changes.Changed(b, c));
    }
  }

  lemma {:induction false} FeedsFree(b: Book)
    requires Sound(b)
    ensures b.feeds !in b.streams
  {
  }

  lemma {:induction false} ChangesKeepStreams(b: Book, cs: seq<Changes.Change>)
    requires Sound(b) && Changes.ChangedAll(b, cs).Some?
    ensures Sound(Changes.ChangedAll(b, cs).value) && StreamsStay(b, Changes.ChangedAll(b, cs).value)
    decreases |cs|
  {
    hide Sound, Changes.Allowed, Changes.Changed;
    if cs != [] {
      ChangesKeepStreams(b, cs[..|cs| - 1]);
      var m := Changes.ChangedAll(b, cs[..|cs| - 1]).value;
      ChangedStreams(m, cs[|cs| - 1]);
      Changes.ChangeSound(m, cs[|cs| - 1]);
    }
  }

  /** A stream that is new and carries a run from its start. */
  ghost predicate FromStart(b: Book, b': Book, k: nat, id: nat) {
    k !in b.streams && k in b'.streams && b'.streams[k].run == id && b'.streams[k].after == 0 && StreamTold(b', k)
  }

  ghost predicate AnsweredFrom(b: Book, b': Book, a: Admission, queue: bool, k: nat) {
    FromStart(b, b', k, b.ids) && a == Admitted(b.ids, b.active.Some? || queue, b.active.Some?, k)
  }

  /** A submission that is taken is answered with its run, whether it waits, whether another is under way, and
      a new stream that carries the run's events from the first on. */
  lemma {:induction false} SubmitAnswered(b: Book, cfg: Config, q: Submission)
    requires Inv(b) && Submittable(b, cfg, q) && b.reserved.None?
    ensures exists k: nat :: AnsweredFrom(b, Apply(b, cfg, Submit(q)), Session.SubmitAnswer(b, cfg, q), q.delivery.AsQueue?, k)
  {
    hide Inv, AdmitBook, FromStart;
    SlotStates(b);
    SubmitTaken(b, cfg, q);
    SubmitKeeps(b, cfg, q);
    AdmittedStream(b, SubmittedRun(b, cfg, q), q.delivery.AsQueue?);
    assert AnsweredFrom(b, Apply(b, cfg, Submit(q)), Session.SubmitAnswer(b, cfg, q), q.delivery.AsQueue?, b.feeds);
  }

  lemma {:induction false} IdleUnlessLive(b: Book)
    requires Inv(b)
    ensures Live(b, b.active) <==> b.active.Some?
  {
    hide Inv;
    SlotStates(b);
  }

  lemma {:induction false} OpenedStreams(b: Book, id: nat)
    requires Unbegun(b, id) && Sound(b)
    ensures id in b.traces && StreamsStay(b, Opened(b, id))
  {
    hide Sound, Opened, StreamsStay, Changes.ChangedAll;
    Changes.OpenedReached(b, id);
    var cs :| Changes.ChangedAll(b, cs) == Some(Opened(b, id));
    ChangesKeepStreams(b, cs);
  }

  /** The stream a run is enlisted with stays with it through its admission. */
  lemma {:induction false} AdmissionKeeps(b: Book, run: Run, queue: bool)
    requires Inv(b) && !b.closed && NewDraft(run) && b.reserved.None?
    ensures StreamsStay(Enlisted(b, run, queue), AdmitBook(b, run, queue))
  {
    hide Inv, Sound, Opened, NewDraft, Enlisted, Unbegun;
    IdleUnlessLive(b);
    InvIsSound(b);
    if b.active.None? {
      EnlistedSound(b, run, queue);
      IdleAdmits(b, run, queue);
      OpenedStreams(Enlisted(b, run, queue), b.ids);
    }
  }

  lemma {:induction false} EnlistedStream(b: Book, run: Run, queue: bool)
    ensures var b1 := Enlisted(b, run, queue); b.feeds in b1.streams && b1.streams[b.feeds] == Stream(b.ids, 0, [], false)
  {
  }

  lemma {:induction false} AdmittedStream(b: Book, run: Run, queue: bool)
    requires Inv(b) && !b.closed && NewDraft(run) && b.reserved.None? && Inv(AdmitBook(b, run, queue))
    ensures FromStart(b, AdmitBook(b, run, queue), b.feeds, b.ids)
  {
    hide Inv, Sound, AdmitBook, StreamTold, NewDraft, Enlisted;
    InvIsSound(b);
    InvIsSound(AdmitBook(b, run, queue));
    FeedsFree(b);
    AdmissionKeeps(b, run, queue);
    EnlistedStream(b, run, queue);
    StreamsTold(AdmitBook(b, run, queue), b.feeds);
  }
}
