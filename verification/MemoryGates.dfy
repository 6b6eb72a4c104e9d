/** The calls that answer a run's gates or cancel it: permission, input, provided tool calls
    and cancellation. */
module MemoryGates {
  import opened Basics
  import opened RunEvents
  import opened CompactionChecker
  import opened MemoryRun
  import opened SessionLedger
  import opened MemoryBook
  import opened MemoryOps
  import opened MemoryCalls

  /** A run between operations that has not settled and has started. */
  lemma {:induction false} Gated(b: Book, id: nat, r': Run)
    requires Inv(b) && !b.closed && id in b.runs && b.runs[id].started && !b.runs[id].terminal
    requires Cosmetic(b.runs[id], r') && r'.answered && r'.started
    ensures Known(b, id) && Poised(b.runs[id], FocusAt(b, id)) && b.runs[id].answered
    ensures At(Put(b, id, r'), id, FocusAt(b, id)) && InvBut(Put(b, id, r'), id)
    ensures OnlyRun(b, Put(b, id, r'), id) && SameSlots(b, Put(b, id, r'))
    ensures Distinct(FocusAt(b, id).steers) && !FocusAt(b, id).t.terminal && FocusAt(b, id).steers == b.runs[id].steers
    ensures forall i | 0 <= i < |FocusAt(b, id).steers| :: FocusAt(b, id).steers[i].submission != 0
  {
    hide Sound, FocusOf, Poised, Draft;
    KnownRun(b, id);
    assert SteadyAt(b, id);
    PutSound(b, id, r');
    SteersNamed(b, id, FocusAt(b, id));
    InvButMoves(b, Put(b, id, r'), id);
  }

  // ------------------------------------------------------------ permission and input

  datatype PermissionAnswer = PermissionAnswer(
    interaction: nat, sessionID: string, run: nat, requestedBy: string, respondedBy: string, choice: string, granted: bool)

  datatype InputAnswer = InputAnswer(
    interaction: nat, sessionID: string, run: nat, requestedBy: string, respondedBy: string, answersValid: bool)

  datatype Resolution = Resolution(
    run: nat, respondedBy: string, permission: Option<PermissionAnswer>, input: Option<InputAnswer>)

  /** What each offered choice grants. */
  function OfferedChoice(choice: string): Option<bool> {
    if choice == "approve" then Some(true) else if choice == "deny" then Some(false) else None
  }

  predicate PermissionFits(cfg: Config, q: Resolution, run: Run) {
    && q.permission.Some? && q.input.None?
    && var p := q.permission.value;
       && p.interaction == run.permissionID && p.sessionID == cfg.sessionID && p.run == q.run
       && p.requestedBy == ENDPOINT && p.respondedBy == cfg.participant
       && OfferedChoice(p.choice) == Some(p.granted)
  }

  predicate InputFits(cfg: Config, q: Resolution, run: Run) {
    && q.input.Some? && q.permission.None?
    && var p := q.input.value;
       && p.interaction == run.inputID && p.sessionID == cfg.sessionID && p.run == q.run
       && p.requestedBy == ENDPOINT && p.respondedBy == cfg.participant
       && p.answersValid
  }

  function ResolveRefusal(b: Book, cfg: Config, q: Resolution): Option<Refusal> {
    if b.closed then Some(SessionClosed)
    else if q.run !in b.runs then Some(RunNotFound)
    else
      var run := b.runs[q.run];
      if run.terminal then Some(InteractionResolved)
      else if !run.started then Some(InteractionNotFound)
      else if q.respondedBy != cfg.participant then Some(WrongResponder)
      else match run.stage
        case StagePermission => if PermissionFits(cfg, q, run) then None else Some(InvalidResolution)
        case StageInput => if InputFits(cfg, q, run) then None else Some(InvalidResolution)
        case StageCall => Some(InteractionNotFound)
        case StageTerminal => Some(InteractionResolved)
  }

  const REPLY_TOKENS: nat := 7

  function GrantedBook(b: Book, id: nat): Book
    requires id in b.runs && id in b.traces
  {
    InputAsked(PublishedAll(b, id, [PermissionResolved(true), CallStarted, CallCompleted]), id)
  }

  function DeniedBook(b: Book, id: nat): Book
    requires id in b.runs && id in b.traces
  {
    SettledBook(PublishedAll(b, id, [PermissionResolved(false), CallCancelled]), id, RunFailed)
  }

  function AnsweredBook(b: Book, id: nat): Book
    requires id in b.runs && id in b.traces
  {
    var b1 := PublishedAll(b, id, [InputResolved(true), ContentDelta]);
    SettledBook(b1.(history := b1.history + REPLY_TOKENS), id, RunCompleted("end_turn"))
  }

  function ResolveBook(b: Book, cfg: Config, q: Resolution): Book {
    if ResolveRefusal(b, cfg, q).Some? || q.run !in b.traces then b
    else
      var id, run := q.run, b.runs[q.run];
      if run.stage.StagePermission? then
        var b1 := Put(b, id, run.(stage := StageInput));
        if q.permission.value.granted then GrantedBook(b1, id) else DeniedBook(b1, id)
      else AnsweredBook(Put(b, id, run.(stage := StageTerminal)), id)
  }

  /** An event the protocol allows, that the checker has nothing against. */
  lemma {:induction false} Steps(f: Focus, k: Kind, t': Track)
    requires Calm(f.c) && Plain(k) && !k.PermissionRequested? && !k.SteerApplied? && !k.SteerDropped?
    requires Advance(f.t, k) == Some(t')
    ensures Next(f, k) == Some(f.(t := t'))
  {
    hide Advance;
    CalmPlain(f.c, k);
  }

  lemma {:induction false} GrantFocus(f: Focus)
    requires f.t.started && !f.t.terminal && Calm(f.c) && f.t.call.CallOpen? && f.t.permission.Open?
    ensures NextAll(f, [PermissionResolved(true), CallStarted, CallCompleted])
         == Some(f.(t := f.t.(call := CallShut, permission := Shut)))
  {
    hide Next, NextAll, Calm;
    var f1 := f.(t := f.t.(permission := Shut));
    var f2 := f1.(t := f1.t.(call := CallRunning));
    Steps(f, PermissionResolved(true), f1.t);
    Steps(f1, CallStarted, f2.t);
    Steps(f2, CallCompleted, f2.t.(call := CallShut));
    NextScript(f, PermissionResolved(true), CallStarted, CallCompleted);
  }

  lemma {:induction false} DenyFocus(f: Focus)
    requires f.t.started && !f.t.terminal && Calm(f.c) && f.t.call.CallOpen? && f.t.permission.Open?
    ensures NextAll(f, [PermissionResolved(false), CallCancelled])
         == Some(f.(t := f.t.(call := CallShut, permission := Shut)))
  {
    hide Next, NextAll, Calm;
    var f1 := f.(t := f.t.(permission := Shut));
    Steps(f, PermissionResolved(false), f1.t);
    Steps(f1, CallCancelled, f1.t.(call := CallShut));
    NextScript(f, PermissionResolved(false), CallCancelled, CallCancelled);
  }

  lemma {:induction false} InputDoneFocus(f: Focus)
    requires f.t.started && !f.t.terminal && f.t.input.Open? && Calm(f.c)
    ensures NextAll(f, [InputResolved(true), ContentDelta]) == Some(f.(t := f.t.(input := Shut)))
  {
    hide Next, NextAll, Calm;
    var f1 := f.(t := f.t.(input := Shut));
    Steps(f, InputResolved(true), f1.t);
    Steps(f1, ContentDelta, f1.t);
    NextScript(f, InputResolved(true), ContentDelta, ContentDelta);
  }

  /** A script that leaves a gated run ready for its input. */
  lemma {:induction false} AskNext(b: Book, b1: Book, id: nat, f: Focus, ks: seq<Kind>, g: Focus)
    requires InvBut(b1, id) && At(b1, id, f) && Quiet(ks) && NextAll(f, ks) == Some(g) && Ready(g)
    requires var run := b1.runs[id]; run.answered && run.started && run.stage.StageInput?
    requires OnlyRun(b, b1, id) && id in b1.traces
    ensures var b' := InputAsked(PublishedAll(b1, id, ks), id);
      && Inv(b') && b.log <= b'.log
      && Kinds(b'.traces[id]) == Kinds(b1.traces[id]) + ks + Asking(g.steers)
  {
    hide Sound, FocusOf, Next, NextAll, PublishedAll, InputAsked, Moved, At, Waiting, Kinds;
    Play(b1, id, f, ks, g);
    var b2 := PublishedAll(b1, id, ks);
    MovedFrame(b1, b2, id, ks);
    InputAskedKeeps(b2, id, g);
    var b3 := InputAsked(b2, id);
    var ks' := Applied(g.steers) + [InputRequested] + [StatusUpdated(WaitingForInput)];
    MovedFrame(b2, b3, id, ks');
    OnlyRunThen(b1, b2, b3, id);
    AskedPoised(b3, id, g);
    InvFromWaiting(b1, b3, id);
    MovedKinds(b1, b2, id, ks);
    MovedKinds(b2, b3, id, ks');
  }

  /** What asking for input publishes: the pending steers applied, the request, the status. */
  function Asking(steers: seq<Steer>): seq<Kind> {
    Applied(steers) + [InputRequested] + [StatusUpdated(WaitingForInput)]
  }

  lemma {:induction false} AskedPoised(b: Book, id: nat, g: Focus)
    requires Ready(g) && At(b, id, g.(t := g.t.(input := Open), steers := []))
    requires b.runs[id].started && b.runs[id].status.WaitingForInput? && b.runs[id].stage.StageInput?
    ensures Waiting(b, id)
  {
    hide Sound, FocusOf;
    WaitingAt(b, id, g.(t := g.t.(input := Open), steers := []));
  }

  /** A script that leaves a gated run ready to settle. */
  lemma {:induction false} SettleNext(b: Book, b1: Book, id: nat, f: Focus, ks: seq<Kind>, g: Focus, history: nat, k: Kind)
    requires InvBut(b1, id) && !b1.closed && At(b1, id, f) && Quiet(ks) && NextAll(f, ks) == Some(g) && Settleable(g, k)
    requires b1.runs[id].answered && OnlyRun(b, b1, id) && id in b1.traces
    ensures var b2 := PublishedAll(b1, id, ks).(history := history);
      && Inv(SettledBook(b2, id, k)) && b.log <= SettledBook(b2, id, k).log
      && SettledWith(b1, SettledBook(b2, id, k), id, ks + Dropped(g.steers), k)
  {
    hide Sound, FocusOf, Next, NextAll, PublishedAll, SettledBook, Moved, At, Settleable, SettledWith;
    Play(b1, id, f, ks, g);
    var m := PublishedAll(b1, id, ks);
    MovedFrame(b1, m, id, ks);
    AtRun(m, id, g);
    Counted(m, id, g, m.ids, history);
    var b2 := m.(history := history);
    MovedFrame(m, b2, id, []);
    OnlyRunThen(b1, m, b2, id);
    AtSound(b2, id, g);
    InvButMoves(b1, b2, id);
    SettleKeeps(b2, id, g, k);
    SettlesTerminal(g, k);
    MovedKinds(b1, m, id, ks);
    SettledThrough(b1, b2, SettledBook(b2, id, k), id, ks, Dropped(g.steers), k);
  }

  lemma {:induction false} AtSound(b: Book, id: nat, f: Focus)
    requires At(b, id, f)
    ensures Sound(b)
  {
  }

  lemma {:induction false} PermissionKeeps(b: Book, id: nat, granted: bool)
    requires Inv(b) && !b.closed && id in b.runs && id in b.traces && b.runs[id].started && !b.runs[id].terminal
    requires b.runs[id].stage.StagePermission?
    ensures var b1 := Put(b, id, b.runs[id].(stage := StageInput));
      var b' := if granted then GrantedBook(b1, id) else DeniedBook(b1, id);
      && Inv(b') && b.log <= b'.log && id in b'.traces
      && (granted ==>
            Kinds(b'.traces[id]) ==
            Kinds(b.traces[id]) + [PermissionResolved(true), CallStarted, CallCompleted] + Asking(b.runs[id].steers))
      && (!granted ==>
            SettledWith(b, b', id, [PermissionResolved(false), CallCancelled] + Dropped(b.runs[id].steers), RunFailed))
  {
    hide Sound, FocusOf, NextAll, PublishedAll, InputAsked, SettledBook, At, Calm, Distinct, Inv, InvBut, Kinds, SettledWith, Asking;
    var r' := b.runs[id].(stage := StageInput);
    Answered(b, id);
    Gated(b, id, r');
    var b1, f := Put(b, id, r'), FocusAt(b, id);
    var g := f.(t := f.t.(call := CallShut, permission := Shut));
    if granted {
      GrantFocus(f);
      AskNext(b, b1, id, f, [PermissionResolved(true), CallStarted, CallCompleted], g);
    } else {
      DenyFocus(f);
      var ks := [PermissionResolved(false), CallCancelled];
      var b2 := PublishedAll(b1, id, ks);
      SettleNext(b, b1, id, f, ks, g, b2.history, RunFailed);
      assert b2.(history := b2.history) == b2;
      SettledPut(b, b1, DeniedBook(b1, id), id, ks + Dropped(g.steers), RunFailed);
    }
  }

  /** A settlement is the same told from before its run's fields were set. */
  lemma {:induction false} SettledPut(b: Book, b1: Book, b': Book, id: nat, ks: seq<Kind>, k: Kind)
    requires id in b.runs && id in b.traces && b1.traces == b.traces && SettledWith(b1, b', id, ks, k) && Terminal(k)
    ensures SettledWith(b, b', id, ks, k) && id in b'.traces
  {
    hide Kinds;
  }

  lemma {:induction false} Answered(b: Book, id: nat)
    requires Inv(b) && id in b.runs
    ensures b.runs[id].answered
  {
    hide Sound, Poised, Draft, FocusOf;
    assert SteadyAt(b, id);
  }

  lemma {:induction false} InputKeeps(b: Book, id: nat)
    requires Inv(b) && !b.closed && id in b.runs && id in b.traces && b.runs[id].started && !b.runs[id].terminal
    requires b.runs[id].stage.StageInput?
    ensures var b' := AnsweredBook(Put(b, id, b.runs[id].(stage := StageTerminal)), id);
      && Inv(b') && b.log <= b'.log
      && SettledWith(b, b', id, [InputResolved(true), ContentDelta] + Dropped(b.runs[id].steers), RunCompleted("end_turn"))
  {
    hide Sound, FocusOf, NextAll, PublishedAll, SettledBook, At, Calm, Distinct, Inv, InvBut, Kinds, SettledWith;
    var r' := b.runs[id].(stage := StageTerminal);
    Answered(b, id);
    Gated(b, id, r');
    var b1, f := Put(b, id, r'), FocusAt(b, id);
    GateExclusive(b, id);
    InputDoneFocus(f);
    var ks, g := [InputResolved(true), ContentDelta], f.(t := f.t.(input := Shut));
    SettleNext(b, b1, id, f, ks, g, PublishedAll(b1, id, ks).history + REPLY_TOKENS, RunCompleted("end_turn"));
    SettledPut(b, b1, AnsweredBook(b1, id), id, ks + Dropped(g.steers), RunCompleted("end_turn"));
  }

  /** Answering a permission or an input keeps the invariant, whatever the answer says. */
  lemma {:induction false} ResolveKeeps(b: Book, cfg: Config, q: Resolution)
    requires Inv(b)
    ensures Inv(ResolveBook(b, cfg, q)) && b.log <= ResolveBook(b, cfg, q).log
  {
    hide Inv, GrantedBook, DeniedBook, AnsweredBook;
    if ResolveRefusal(b, cfg, q).None? && q.run in b.traces {
      if b.runs[q.run].stage.StagePermission? {
        PermissionKeeps(b, q.run, q.permission.value.granted);
      } else {
        InputKeeps(b, q.run);
      }
    }
  }

  lemma {:induction false} GateExclusive(b: Book, id: nat)
    requires Inv(b) && id in b.runs && Known(b, id)
    ensures var t := FocusAt(b, id).t;
      t.input.Open? ==> !t.permission.Open? && !t.call.CallOpen? && !t.call.CallRunning?
  {
    hide Sound, FocusOf;
    KnownRun(b, id);
  }

  // ------------------------------------------------------------ provided tool calls

  datatype CallResolution = CallResolution(
    envelope: nat, interaction: nat, sessionID: string, run: nat,
    requestedBy: string, respondedBy: string, toolCallMatches: bool, arm: Arm)

  datatype CallReason = UnknownInteraction | CallWrongResponder | LateAcknowledgement | AlreadyResolved | RepeatedAcknowledgement

  datatype CallAnswer = CallClosed | CallRefused(reason: CallReason, settlement: nat) | CallAccepted

  function CallAnswerOf(b: Book, cfg: Config, q: CallResolution): CallAnswer {
    if b.closed then CallClosed
    else if q.run !in b.runs || b.runs[q.run].callID == 0 || q.interaction != b.runs[q.run].callID || q.sessionID != cfg.sessionID then
      CallRefused(UnknownInteraction, 0)
    else
      var run := b.runs[q.run];
      if q.respondedBy != cfg.participant || q.requestedBy != ENDPOINT || !q.toolCallMatches then CallRefused(CallWrongResponder, 0)
      else if q.arm.NoArm? then CallRefused(UnknownInteraction, 0)
      else if !run.settledArm.NoArm? then
        if q.arm.ArmAcknowledge? && run.settlementID == 0 then CallRefused(LateAcknowledgement, 0)
        else CallRefused(AlreadyResolved, if run.settlementID == 0 then run.settledRequest else run.settlementID)
      else if run.terminal || !run.stage.StageCall? then CallRefused(AlreadyResolved, run.settlementID)
      else if q.arm.ArmAcknowledge? && run.acknowledged then CallRefused(RepeatedAcknowledgement, 0)
      else CallAccepted
  }

  function CallScript(acknowledged: bool, arm: Arm): seq<Kind> {
    var end := if arm.ArmError? then CallFailed else CallCompleted;
    if acknowledged then [end] else [CallStarted, end]
  }

  function ResolveCallBook(b: Book, cfg: Config, q: CallResolution): Book {
    if !CallAnswerOf(b, cfg, q).CallAccepted? || q.run !in b.traces then b
    else
      var id, run := q.run, b.runs[q.run];
      if q.arm.ArmAcknowledge? then
        PublishedAll(Put(b, id, run.(acknowledged := true)), id, [CallStarted])
      else
        var b1 := Put(b, id, run.(settledArm := q.arm, settledRequest := q.envelope, stage := StageInput));
        InputAsked(PublishedAll(b1, id, CallScript(run.acknowledged, q.arm)), id)
  }

  /** The one call that escapes the protocol: the code answers the provided call of a run that
      waits behind another, before that run has started. */
  predicate Premature(b: Book, cfg: Config, q: CallResolution) {
    CallAnswerOf(b, cfg, q).CallAccepted? && !b.runs[q.run].started
  }

  lemma {:induction false} CallFocus(f: Focus, acknowledged: bool, arm: Arm)
    requires f.t.started && !f.t.terminal && Calm(f.c) && f.t.permission.Unopened?
    requires if acknowledged then f.t.call.CallRunning? else f.t.call.CallOpen?
    ensures NextAll(f, CallScript(acknowledged, arm)) == Some(f.(t := f.t.(call := CallShut)))
    ensures !acknowledged ==> NextAll(f, [CallStarted]) == Some(f.(t := f.t.(call := CallRunning)))
  {
    hide Next, NextAll, Calm;
    var end := if arm.ArmError? then CallFailed else CallCompleted;
    var f1 := f.(t := f.t.(call := CallRunning));
    Steps(f1, end, f.t.(call := CallShut));
    if acknowledged {
      NextScript(f, end, end, end);
    } else {
      Steps(f, CallStarted, f1.t);
      NextScript(f, CallStarted, end, end);
    }
  }

  lemma {:induction false} StartlessKinds(ks: seq<Kind>, ks': seq<Kind>)
    requires TrackOf(ks).None? && ks <= ks'
    ensures TrackOf(ks').None?
    decreases |ks'|
  {
    if |ks| < |ks'| {
      assert ks <= ks'[..|ks'| - 1];
      StartlessKinds(ks, ks'[..|ks'| - 1]);
    } else {
      assert ks == ks';
    }
  }

  lemma {:induction false} PublishedAllKinds(b: Book, id: nat, ks: seq<Kind>)
    requires id in b.runs && id in b.traces
    ensures Kinds(PublishedAll(b, id, ks).traces[id]) == Kinds(b.traces[id]) + ks
    decreases |ks|
  {
    if ks == [] {
      assert Kinds(b.traces[id]) + [] == Kinds(b.traces[id]);
    } else {
      hide RunAfter, Delivered, SlotsAfter, SettledAfter;
      var front, k := ks[..|ks| - 1], ks[|ks| - 1];
      PublishedAllKinds(b, id, front);
      var m := PublishedAll(b, id, front);
      KindsSnoc(m.traces[id], EventOf(m, id, k));
      assert Kinds(b.traces[id]) + ks == Kinds(b.traces[id]) + front + [k];
    }
  }

  lemma {:induction false} InputAskedExtends(b: Book, id: nat)
    requires id in b.runs && id in b.traces
    ensures Kinds(b.traces[id]) <= Kinds(InputAsked(b, id).traces[id])
  {
    hide RunAfter, Delivered, SlotsAfter, SettledAfter, Kinds;
    PublishedAllKinds(b, id, Applied(b.runs[id].steers));
    var b1 := PublishedAll(b, id, Applied(b.runs[id].steers));
    KindsSnoc(b1.traces[id], EventOf(b1, id, InputRequested));
    var b2 := Published(b1, id, InputRequested);
    var b3 := Put(b2, id, b2.runs[id].(status := WaitingForInput));
    KindsSnoc(b3.traces[id], EventOf(b3, id, StatusUpdated(WaitingForInput)));
  }

  /** Resolving a provided call keeps the invariant exactly when it is not premature. */
  lemma {:induction false} ResolveCallKeeps(b: Book, cfg: Config, q: CallResolution)
    requires Inv(b)
    ensures Inv(ResolveCallBook(b, cfg, q)) <==> !Premature(b, cfg, q)
    ensures !Premature(b, cfg, q) ==> b.log <= ResolveCallBook(b, cfg, q).log
  {
    if Premature(b, cfg, q) {
      PrematureBreaks(b, cfg, q);
    } else if CallAnswerOf(b, cfg, q).CallAccepted? {
      CallKeeps(b, cfg, q);
    }
  }

  lemma {:induction false} CallKeeps(b: Book, cfg: Config, q: CallResolution)
    requires Inv(b) && CallAnswerOf(b, cfg, q).CallAccepted? && !Premature(b, cfg, q)
    ensures Inv(ResolveCallBook(b, cfg, q)) && b.log <= ResolveCallBook(b, cfg, q).log
  {
    hide Inv, PublishedAll, InputAsked;
    var id := q.run;
    KnownAt(b, id);
    if q.arm.ArmAcknowledge? {
      AcknowledgeKeeps(b, id);
    } else {
      ResultKeeps(b, id, q.arm, q.envelope);
    }
  }

  lemma {:induction false} KnownAt(b: Book, id: nat)
    requires Inv(b) && id in b.runs
    ensures Known(b, id) && b.runs[id].answered
  {
    hide Sound, Poised, Draft, FocusOf;
    assert SteadyAt(b, id);
  }

  lemma {:induction false} AcknowledgeKeeps(b: Book, id: nat)
    requires Inv(b) && !b.closed && id in b.runs && id in b.traces && b.runs[id].started && !b.runs[id].terminal
    requires b.runs[id].stage.StageCall? && !b.runs[id].acknowledged
    ensures var b' := PublishedAll(Put(b, id, b.runs[id].(acknowledged := true)), id, [CallStarted]);
      && Inv(b') && b.log <= b'.log && Kinds(b'.traces[id]) == Kinds(b.traces[id]) + [CallStarted]
  {
    hide Sound, FocusOf, NextAll, PublishedAll, At, Calm, Distinct, Inv, InvBut, Waiting, Moved, Kinds;
    var r' := b.runs[id].(acknowledged := true);
    Answered(b, id);
    Gated(b, id, r');
    var b1, f := Put(b, id, r'), FocusAt(b, id);
    CallFocus(f, false, NoArm);
    var g := f.(t := f.t.(call := CallRunning));
    Play(b1, id, f, [CallStarted], g);
    var b2 := PublishedAll(b1, id, [CallStarted]);
    MovedFrame(b1, b2, id, [CallStarted]);
    AckPoised(b2, id, f, g);
    InvFromWaiting(b1, b2, id);
    MovedKinds(b1, b2, id, [CallStarted]);
  }

  lemma {:induction false} ResultKeeps(b: Book, id: nat, arm: Arm, envelope: nat)
    requires Inv(b) && !b.closed && id in b.runs && id in b.traces && b.runs[id].started && !b.runs[id].terminal
    requires b.runs[id].stage.StageCall?
    ensures
      var b1 := Put(b, id, b.runs[id].(settledArm := arm, settledRequest := envelope, stage := StageInput));
      var b' := InputAsked(PublishedAll(b1, id, CallScript(b.runs[id].acknowledged, arm)), id);
      && Inv(b') && b.log <= b'.log
      && Kinds(b'.traces[id]) == Kinds(b.traces[id]) + CallScript(b.runs[id].acknowledged, arm) + Asking(b.runs[id].steers)
  {
    hide Kinds, Asking, Sound, FocusOf, NextAll, PublishedAll, InputAsked, At, Calm, Distinct, Inv, InvBut;
    var run := b.runs[id];
    var r' := run.(settledArm := arm, settledRequest := envelope, stage := StageInput);
    Answered(b, id);
    Gated(b, id, r');
    var b1, f := Put(b, id, r'), FocusAt(b, id);
    CallFocus(f, run.acknowledged, arm);
    AskNext(b, b1, id, f, CallScript(run.acknowledged, arm), f.(t := f.t.(call := CallShut)));
  }

  lemma {:induction false} AckPoised(b: Book, id: nat, f: Focus, g: Focus)
    requires At(b, id, g) && g == f.(t := f.t.(call := CallRunning))
    requires b.runs[id].acknowledged && Poised(b.runs[id].(acknowledged := false), f) && b.runs[id].stage.StageCall?
    ensures Waiting(b, id)
  {
    hide Sound, FocusOf;
    WaitingAt(b, id, g);
  }

  /** The log holds a run's events as its trace does. */
  ghost predicate Logged(b: Book, id: nat) {
    id in b.runs && id in b.traces && OfRun(b.log, id) == b.traces[id]
  }

  lemma {:induction false} PublishedLogged(b: Book, id: nat, k: Kind)
    requires Logged(b, id)
    ensures Logged(Published(b, id, k), id)
  {
    hide RunAfter, Delivered, SlotsAfter, SettledAfter;
    SnocLog(b.log, EventOf(b, id, k), id);
  }

  lemma {:induction false} PublishedAllLogged(b: Book, id: nat, ks: seq<Kind>)
    requires Logged(b, id)
    ensures Logged(PublishedAll(b, id, ks), id)
    decreases |ks|
  {
    hide Published, Logged;
    LoggedKnown(b, id);
    if ks != [] {
      PublishedAllLogged(b, id, ks[..|ks| - 1]);
      PublishedLogged(PublishedAll(b, id, ks[..|ks| - 1]), id, ks[|ks| - 1]);
    }
  }

  lemma {:induction false} LoggedKnown(b: Book, id: nat)
    requires Logged(b, id)
    ensures id in b.runs && id in b.traces && OfRun(b.log, id) == b.traces[id]
  {
  }

  lemma {:induction false} InputAskedLogged(b: Book, id: nat)
    requires Logged(b, id)
    ensures Logged(InputAsked(b, id), id)
  {
    hide RunAfter, Delivered, SlotsAfter, SettledAfter, PublishedAll, Published, OfRun;
    var b1 := PublishedAll(b, id, Applied(b.runs[id].steers));
    PublishedAllLogged(b, id, Applied(b.runs[id].steers));
    PublishedLogged(b1, id, InputRequested);
    var b2 := Published(b1, id, InputRequested);
    PublishedLogged(Put(b2, id, b2.runs[id].(status := WaitingForInput)), id, StatusUpdated(WaitingForInput));
  }

  /** Events the protocol refuses, the first being the start of a call. */
  predicate BeginsWithCall(ks: seq<Kind>) {
    ks != [] && ks[0] == CallStarted && TrackOf(ks).None?
  }

  /** A premature answer publishes the start of a call as the first event of a run that has not
      started, which the protocol refuses. */
  lemma {:induction false} PrematurePublishes(b: Book, cfg: Config, q: CallResolution)
    requires Inv(b) && Premature(b, cfg, q)
    ensures var b' := ResolveCallBook(b, cfg, q);
      && q.run in b'.runs && q.run in b'.traces && OfRun(b'.log, q.run) == b'.traces[q.run]
      && BeginsWithCall(Kinds(OfRun(b'.log, q.run)))
  {
    hide Sound, FocusOf, PublishedAll, InputAsked, Kinds;
    var id, run := q.run, b.runs[q.run];
    assert SteadyAt(b, id);
    assert !run.acknowledged && b.traces[id] == [];
    InvLogged(b, id);
    var script := if q.arm.ArmAcknowledge? then [CallStarted] else CallScript(false, q.arm);
    var r' := if q.arm.ArmAcknowledge? then run.(acknowledged := true)
              else run.(settledArm := q.arm, settledRequest := q.envelope, stage := StageInput);
    var b1 := Put(b, id, r');
    PublishedAllKinds(b1, id, script);
    PublishedAllLogged(b1, id, script);
    var b2 := PublishedAll(b1, id, script);
    InputAskedExtends(b2, id);
    InputAskedLogged(b2, id);
    var ks := Kinds(ResolveCallBook(b, cfg, q).traces[id]);
    NoKinds();
    assert [CallStarted] <= ks;
    assert TrackOf([CallStarted]).None? by {
      assert [CallStarted][..0] == [];
      assert TrackOf([]) == Some(UNSEEN);
    }
    StartlessKinds([CallStarted], ks);
  }

  lemma {:induction false} InvLogged(b: Book, id: nat)
    requires Inv(b) && id in b.runs
    ensures Logged(b, id)
  {
    hide RunSound, StreamsSound, SteersSound, SlotsSound, OrderSound, SteadyAt;
  }

  lemma {:induction false} PrematureBreaks(b: Book, cfg: Config, q: CallResolution)
    requires Inv(b) && Premature(b, cfg, q)
    ensures !Inv(ResolveCallBook(b, cfg, q))
  {
    hide Sound, FocusOf, ResolveCallBook, Premature;
    PrematurePublishes(b, cfg, q);
    assert !SteadyAt(ResolveCallBook(b, cfg, q), q.run);
  }

  lemma {:induction false} NoKinds()
    ensures Kinds([]) == []
  {
  }

  /** A client that resolves only calls it has been shown is never premature. */
  lemma {:induction false} ShownIsNotPremature(b: Book, cfg: Config, q: CallResolution, e: Event)
    requires Inv(b) && e in b.log && e.run == q.run && e.kind.CallRequested?
    ensures !Premature(b, cfg, q)
  {
    hide RunSound, StreamsSound, SteersSound, SlotsSound, OrderSound, Poised, Draft, FocusOf;
    MemberOfRun(b.log, e);
    assert b.traces[q.run] != [];
    assert SteadyAt(b, q.run);
  }

  lemma {:induction false} MemberOfRun(log: seq<Event>, e: Event)
    requires e in log
    ensures e in OfRun(log, e.run)
    decreases |log|
  {
    if e in log[..|log| - 1] {
      MemberOfRun(log[..|log| - 1], e);
    }
  }

  // ------------------------------------------------------------ cancel

  datatype CancelAnswer = CancelRefused(refusal: Refusal) | Cancelled(status: Status)

  function CancelAnswerOf(b: Book, id: nat): CancelAnswer {
    if b.closed then CancelRefused(SessionClosed)
    else if id !in b.runs then CancelRefused(RunNotFound)
    else if b.runs[id].terminal then
      if b.runs[id].status == Status.Cancelled then CancelAnswer.Cancelled(Status.Cancelled) else CancelRefused(RunTerminal(b.runs[id].status))
    else CancelAnswer.Cancelled(Cancelling)
  }

  function CloseGates(stage: Stage): seq<Kind> {
    match stage
    case StageCall => [CallCancelled]
    case StagePermission => [PermissionResolved(false), CallCancelled]
    case StageInput => [InputResolved(false)]
    case StageTerminal => []
  }

  function CancelBook(b: Book, id: nat): Book {
    if b.closed || id !in b.runs || id !in b.traces || b.runs[id].terminal || b.runs[id].status.Cancelling? then b
    else
      var run := b.runs[id];
      var b1 := Put(b, id, run.(status := Cancelling));
      if !run.started then SettledBook(b1, id, RunCancelled)
      else SettledBook(PublishedAll(b1, id, [StatusUpdated(Cancelling)] + CloseGates(run.stage)), id, RunCancelled)
  }

  lemma {:induction false} CancelFocus(run: Run, f: Focus)
    requires Poised(run, f) && !f.t.terminal && (f.t.input.Open? ==> !f.t.permission.Open? && !f.t.call.CallOpen? && !f.t.call.CallRunning?)
    ensures var ks := [StatusUpdated(Cancelling)] + CloseGates(run.stage);
      && Quiet(ks) && NextAll(f, ks).Some?
      && var g := NextAll(f, ks).value;
         g.steers == f.steers && g.c == f.c && g.t.started && !g.t.terminal && AllShut(g.t)
  {
    hide Next, NextAll, Calm;
    var status := StatusUpdated(Cancelling);
    var ks := [status] + CloseGates(run.stage);
    Steps(f, status, f.t);
    match run.stage
    case StagePermission =>
      assert ks == [status, PermissionResolved(false), CallCancelled];
      var f1 := f.(t := f.t.(permission := Shut));
      Steps(f, PermissionResolved(false), f1.t);
      Steps(f1, CallCancelled, f1.t.(call := CallShut));
      NextScript(f, status, PermissionResolved(false), CallCancelled);
    case StageCall =>
      assert ks == [status, CallCancelled];
      Steps(f, CallCancelled, f.t.(call := CallShut));
      NextScript(f, status, CallCancelled, CallCancelled);
    case StageInput =>
      assert ks == [status, InputResolved(false)];
      Steps(f, InputResolved(false), f.t.(input := Shut));
      NextScript(f, status, InputResolved(false), InputResolved(false));
  }

  lemma {:induction false} ReservedFocus(b: Book, id: nat)
    requires Inv(b) && id in b.runs && !b.runs[id].started && !b.runs[id].terminal
    ensures Known(b, id) && b.runs[id].answered && !b.runs[id].status.Cancelling? && Settleable(FocusAt(b, id), RunCancelled)
    ensures FocusAt(b, id).steers == []
  {
    hide LogSound, StreamsSound, SteersSound, SlotsSound, OrderSound, Agrees;
    assert SteadyAt(b, id);
    NoKinds();
  }

  /** Cancelling keeps the invariant and leaves the named run settled, started or not. */
  lemma {:induction false} CancelKeeps(b: Book, id: nat)
    requires Inv(b)
    ensures Inv(CancelBook(b, id)) && b.log <= CancelBook(b, id).log
    ensures CancelAnswerOf(b, id) == CancelAnswer.Cancelled(Cancelling) ==>
      SettledWith(b, CancelBook(b, id), id, CancelScript(b.runs[id]), RunCancelled)
    ensures CancelAnswerOf(b, id) != CancelAnswer.Cancelled(Cancelling) ==> CancelBook(b, id) == b
  {
    hide Sound, FocusOf, NextAll, PublishedAll, SettledBook, At, Settleable, Poised, Kinds, SettledWith, CloseGates;
    if !b.closed && id in b.runs && !b.runs[id].terminal {
      KnownRun(b, id);
      var run := b.runs[id];
      var r' := run.(status := Cancelling);
      var b1, f := Put(b, id, r'), FocusAt(b, id);
      if run.started {
        NotCancelling(b, id);
        Gated(b, id, r');
        GateExclusive(b, id);
        CancelFocus(run, f);
        var ks := [StatusUpdated(Cancelling)] + CloseGates(run.stage);
        var b2 := PublishedAll(b1, id, ks);
        CancelSettles(run, f, NextAll(f, ks).value);
        SettleNext(b, b1, id, f, ks, NextAll(f, ks).value, b2.history, RunCancelled);
        assert b2.(history := b2.history) == b2;
        SettledPut(b, b1, CancelBook(b, id), id, ks + Dropped(f.steers), RunCancelled);
      } else {
        ReservedFocus(b, id);
        PutSound(b, id, r');
        InvButMoves(b, b1, id);
        AtHere(b1, id, f);
        SettleKeeps(b1, id, f, RunCancelled);
        SettledPut(b, b1, CancelBook(b, id), id, Dropped(f.steers), RunCancelled);
        assert Dropped(f.steers) == [];
      }
    }
  }

  /** What cancelling a run publishes before run.cancelled: nothing of a run that has not started,
      and otherwise its new status, the closing of what it had open, and its steers dropped. */
  function CancelScript(run: Run): seq<Kind> {
    if !run.started then [] else [StatusUpdated(Cancelling)] + CloseGates(run.stage) + Dropped(run.steers)
  }

  lemma {:induction false} AtHere(b: Book, id: nat, f: Focus)
    requires Sound(b) && Known(b, id) && FocusAt(b, id) == f && !b.runs[id].terminal
    ensures At(b, id, f)
  {
  }

  lemma {:induction false} NotCancelling(b: Book, id: nat)
    requires Inv(b) && id in b.runs && !b.runs[id].terminal && b.runs[id].started
    ensures !b.runs[id].status.Cancelling?
  {
    hide Sound, FocusOf;
    assert SteadyAt(b, id);
  }

  lemma {:induction false} CancelSettles(run: Run, f: Focus, g: Focus)
    requires Poised(run, f) && g.c == f.c && g.t.started && !g.t.terminal && AllShut(g.t)
    ensures Settleable(g, RunCancelled)
  {
  }
}
