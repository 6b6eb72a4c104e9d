/** The calls a client makes on the in-memory session, each as a function from one book to the
    next, and the invariant over every sequence of calls. */
module MemoryCalls {
  import opened Basics
  import opened RunEvents
  import opened CompactionChecker
  import opened MemoryRun
  import opened SessionLedger
  import opened MemoryBook
  import opened MemoryOps

  /** A session's fixed parameters; the journal holds at least one event. */
  datatype Config = Config(sessionID: string, participant: string, providesTools: bool, capacity: nat)

  const ENDPOINT := "reference.memory"

  datatype SteerReason = UnknownTarget | TargetTerminal | NotSteerable | TargetQueued | NoActiveRun

  datatype Refusal =
    | SessionClosed | RunNotFound | RunActive | InvalidSubmission | UnsupportedControl
    | SteerRefused(reason: SteerReason, sequence: Option<int>)
    | InteractionResolved | InteractionNotFound | WrongResponder | InvalidResolution
    | RunTerminal(status: Status) | ReplayCursorFuture

  // ------------------------------------------------------------ the invariant

  ghost predicate SteadyAt(b: Book, id: nat) {
    Known(b, id) && Steady(b.runs[id], b.traces[id])
  }

  /** Everything but one run is as it should be between operations. */
  ghost predicate InvBut(b: Book, id: nat) {
    && Sound(b) && (b.closed ==> b.active.None?)
    && (b.active.Some? && b.active.value != id ==> b.active.value in b.runs && b.runs[b.active.value].started)
    && forall o | o in b.runs && o != id :: SteadyAt(b, o)
  }

  /** What holds of the session between operations. */
  ghost predicate Inv(b: Book) {
    && Sound(b) && (b.closed ==> b.active.None?)
    && (b.active.Some? ==> b.active.value in b.runs && b.runs[b.active.value].started)
    && forall id | id in b.runs :: SteadyAt(b, id)
  }

  lemma {:induction false} OnlyRunThen(b: Book, m: Book, b': Book, id: nat)
    requires OnlyRun(b, m, id) && OnlyRun(m, b', id)
    ensures OnlyRun(b, b', id)
  {
  }

  lemma {:induction false} InvButMoves(b: Book, b': Book, id: nat)
    requires InvBut(b, id) && OnlyRun(b, b', id) && Sound(b') && b'.active == b.active
    ensures InvBut(b', id)
  {
    hide Sound, Steady;
  }

  lemma {:induction false} WaitingSteady(b: Book, id: nat)
    requires Waiting(b, id) && b.runs[id].answered
    ensures SteadyAt(b, id) && b.runs[id].started
  {
    hide Sound;
  }

  lemma {:induction false} InvFromWaiting(b: Book, b': Book, id: nat)
    requires InvBut(b, id) && OnlyRun(b, b', id) && b'.active == b.active
    requires Waiting(b', id) && b'.runs[id].answered
    ensures Inv(b')
  {
    hide Sound, Steady;
    InvButMoves(b, b', id);
    WaitingSteady(b', id);
  }

  // ------------------------------------------------------------ settling a run

  /** The run that moves into the started slot when an event frees it. */
  function Promotes(active: Option<nat>, reserved: Option<nat>, id: nat, k: Kind): Option<nat> {
    var a := if active == Some(id) then None else active;
    var r := if reserved == Some(id) then None else reserved;
    if Terminal(k) && a.None? then r else None
  }

  function Promoted(b: Book, id: nat, k: Kind): Option<nat> {
    Promotes(b.active, b.reserved, id, k)
  }

  /** A terminal event: the pending steers are dropped, the event published, and the waiting
      run opened when the slot comes free. */
  function SettledBook(b: Book, id: nat, k: Kind): Book
    requires id in b.runs && id in b.traces
  {
    var b1 := PublishedAll(b, id, Dropped(b.runs[id].steers));
    var b2 := Published(b1, id, k);
    var p := Promoted(b1, id, k);
    if p.Some? && p.value in b2.runs && p.value in b2.traces then Opened(b2, p.value) else b2
  }

  predicate Settleable(f: Focus, k: Kind) {
    if f.t.started then !f.t.terminal && AllShut(f.t) && Calm(f.c) && Terminal(k)
    else f.t == UNSEEN && f.steers == [] && k == RunCancelled && f.c == Fresh(f.c.compactionRun, f.c.continues)
  }

  lemma {:induction false} DroppedFocus(f: Focus, k: Kind)
    requires Settleable(f, k) && Distinct(f.steers) && forall i | 0 <= i < |f.steers| :: f.steers[i].submission != 0
    ensures NextAll(f, Dropped(f.steers)) == Some(f.(steers := []))
    ensures Next(f.(steers := []), k).Some?
  {
    var ks := Dropped(f.steers);
    if f.t.started {
      SettleEach(f, ks, |ks|);
      assert ks[..|ks|] == ks && f.steers[|ks|..] == [];
      CalmTerminal(f.c, k);
    } else {
      assert ks == [];
    }
  }

  /** A run settled by an event, after some others. */
  ghost predicate SettledWith(b: Book, b': Book, id: nat, ks: seq<Kind>, k: Kind) {
    && id in b.traces && id in b'.runs && id in b'.traces && id in b.runs
    && b'.runs[id].terminal && b'.runs[id].status == StatusAfter(b.runs[id], k)
    && Kinds(b'.traces[id]) == Kinds(b.traces[id]) + ks + [k]
  }

  lemma {:induction false} SettledThrough(b: Book, m: Book, b': Book, id: nat, ks: seq<Kind>, ks': seq<Kind>, k: Kind)
    requires id in b.runs && id in b.traces && id in m.runs && id in m.traces && Kinds(m.traces[id]) == Kinds(b.traces[id]) + ks
    requires SettledWith(m, b', id, ks', k) && Terminal(k)
    ensures SettledWith(b, b', id, ks + ks', k)
  {
    hide Kinds;
  }

  /** Settling a run restores the invariant: the run is settled with every steer dropped, and the
      run behind it, if any, is opened and settled or waiting. */
  lemma {:induction false} SettleKeeps(b: Book, id: nat, f: Focus, k: Kind)
    requires InvBut(b, id) && !b.closed && At(b, id, f) && b.runs[id].answered && Settleable(f, k)
    ensures Inv(SettledBook(b, id, k))
    ensures SettledWith(b, SettledBook(b, id, k), id, Dropped(f.steers), k)
    ensures b.log <= SettledBook(b, id, k).log
  {
    hide Sound, FocusOf, Next, NextAll, PublishedAll, Published, Moved, Opened, Poised, Draft, Settleable, Waiting, SettledWith;
    AtRun(b, id, f);
    SteersNamed(b, id, f);
    var ks := Dropped(f.steers);
    DroppedFocus(f, k);
    var g := f.(steers := []);
    Play(b, id, f, ks, g);
    var b1 := PublishedAll(b, id, ks);
    MovedFrame(b, b1, id, ks);
    InvButMoves(b, b1, id);
    SettlesTerminal(f, k);
    SettleAfterDrop(b1, id, g, k);
    MovedKinds(b, b1, id, ks);
    SettledThrough(b, b1, SettledBook(b, id, k), id, ks, [], k);
    assert ks + [] == ks;
  }

  lemma {:induction false} MovedKinds(b: Book, b': Book, id: nat, ks: seq<Kind>)
    requires Moved(b, b', id, ks)
    ensures id in b.traces && id in b'.traces && Kinds(b'.traces[id]) == Kinds(b.traces[id]) + ks
  {
    hide StartsOf;
  }

  lemma {:induction false} SettleAfterDrop(b1: Book, id: nat, g: Focus, k: Kind)
    requires InvBut(b1, id) && !b1.closed && At(b1, id, g) && b1.runs[id].answered && Terminal(k) && Next(g, k).Some?
    ensures var b2 := Published(b1, id, k);
      match Promoted(b1, id, k)
      case Some(p) =>
        p in b2.runs && p in b2.traces && Inv(Opened(b2, p)) && b1.log <= Opened(b2, p).log
        && SettledWith(b1, Opened(b2, p), id, [], k)
      case None => Inv(b2) && SettledWith(b1, b2, id, [], k) && b1.log <= b2.log
  {
    hide Sound, FocusOf, Next, Published, Opened, Poised, Draft, Waiting, Kinds;
    assert Kinds(b1.traces[id]) + [] == Kinds(b1.traces[id]);
    SettlesRun(b1, id, g, k);
    var b2 := Published(b1, id, k);
    SlotsOf(b1);
    if Promoted(b1, id, k).Some? {
      var p := Promoted(b1, id, k).value;
      PromotedUnbegun(b1, b2, id, p);
      OpenedKeeps(b2, p);
      PromotedInv(b1, b2, Opened(b2, p), id, p);
    } else {
      SettledInv(b1, b2, id);
    }
  }

  lemma {:induction false} SettlesTerminal(f: Focus, k: Kind)
    requires Settleable(f, k)
    ensures Terminal(k)
  {
  }

  lemma {:induction false} MovedFrame(b: Book, b': Book, id: nat, ks: seq<Kind>)
    requires Moved(b, b', id, ks)
    ensures OnlyRun(b, b', id) && SameSlots(b, b') && SameRun(b.runs[id], b'.runs[id])
  {
    hide StartsOf;
  }

  lemma {:induction false} SlotsOf(b: Book)
    requires Sound(b)
    ensures SlotsSound(b.active, b.reserved, b.runs)
  {
    hide RunsSound, LogSound, StreamsSound, SteersSound, OrderSound;
  }

  lemma {:induction false} TerminalSteady(b: Book, id: nat)
    requires Sound(b) && id in b.runs && b.runs[id].terminal && b.runs[id].answered
    ensures SteadyAt(b, id)
  {
    hide Sound;
    KnownRun(b, id);
  }

  lemma {:induction false} SettledInv(b1: Book, b2: Book, id: nat)
    requires InvBut(b1, id) && !b1.closed && OnlyRun(b1, b2, id) && Sound(b2) && b2.runs[id].terminal && b2.runs[id].answered
    requires b2.active.Some? ==> b2.active == b1.active && b2.active.value != id
    ensures Inv(b2)
  {
    hide Sound, Steady;
    TerminalSteady(b2, id);
  }

  lemma {:induction false} PromotedUnbegun(b1: Book, b2: Book, id: nat, p: nat)
    requires InvBut(b1, id) && OnlyRun(b1, b2, id) && Sound(b2) && p != id
    requires SlotsSound(b1.active, b1.reserved, b1.runs) && b1.reserved == Some(p)
    requires b2.active == Some(p) && b2.reserved.None?
    ensures Unbegun(b2, p)
  {
    hide Sound, Poised, Draft;
    assert SteadyAt(b1, p);
  }

  lemma {:induction false} PromotedInv(b1: Book, b2: Book, b3: Book, id: nat, p: nat)
    requires InvBut(b1, id) && !b1.closed && OnlyRun(b1, b2, id) && p != id && p in b1.runs
    requires b2.runs[id].terminal && b2.runs[id].answered
    requires OpenedWell(b2, b3, p)
    ensures Inv(b3) && b3.runs[id] == b2.runs[id] && b3.traces[id] == b2.traces[id] && b2.log <= b3.log
  {
    hide Sound, Poised, Draft;
    assert SteadyAt(b1, p);
    TerminalSteady(b3, id);
    if b3.runs[p].terminal {
      TerminalSteady(b3, p);
    } else {
      WaitingSteady(b3, p);
    }
    forall o | o in b3.runs && o != id && o != p
      ensures SteadyAt(b3, o)
    {
      assert SteadyAt(b1, o);
    }
  }

  // ------------------------------------------------------------ submit and compact

  datatype Delivery = Auto | AsQueue | AsSteer | OtherDelivery(advertisable: bool)

  /** A submission; controls are None when a feature gate refuses them. */
  datatype Submission = Submission(
    envelope: nat, sessionID: string, messages: nat, tokens: nat, delivery: Delivery,
    controls: Option<bool>, target: nat, steerControls: bool)

  datatype Compaction = Compaction(sessionID: string, delivery: Delivery, continues: bool, focus: nat)

  datatype Admission =
    | Refused(refusal: Refusal)
    | Admitted(run: nat, queued: bool, busy: bool, stream: nat)
    | Steered(run: nat, submission: nat, status: Status, sequence: int)

  predicate Live(b: Book, slot: Option<nat>) {
    slot.Some? && slot.value in b.runs && !b.runs[slot.value].terminal
  }

  /** Why an admission is refused once its own fields are in order. */
  function SlotRefusal(b: Book, cfg: Config, sessionID: string): Option<Refusal> {
    if b.closed then Some(SessionClosed)
    else if sessionID != cfg.sessionID then Some(RunNotFound)
    else if Live(b, b.active) && Live(b, b.reserved) then Some(RunActive)
    else None
  }

  function SubmitRefusal(b: Book, cfg: Config, q: Submission): Option<Refusal> {
    if q.controls.None? then Some(UnsupportedControl)
    else if q.sessionID == "" || q.messages == 0 then Some(InvalidSubmission)
    else if q.delivery.OtherDelivery? then Some(if q.delivery.advertisable then UnsupportedControl else InvalidSubmission)
    else SlotRefusal(b, cfg, q.sessionID)
  }

  function CompactRefusal(b: Book, cfg: Config, q: Compaction): Option<Refusal> {
    if q.delivery.AsSteer? || q.delivery.OtherDelivery? then Some(UnsupportedControl)
    else if q.sessionID == "" then Some(InvalidSubmission)
    else SlotRefusal(b, cfg, q.sessionID)
  }

  /** The ids a new run draws, in order: run, permission, input, call. */
  function NewRun(ids: nat, callsTool: bool, provided: bool, compaction: bool, continues: bool, focus: nat, input: nat): Run {
    var stage := if !callsTool then StageInput else if provided then StageCall else StagePermission;
    Run(Running, false, false, false, 0, stage, callsTool, 1, false,
        ids + 1, ids + 2, if callsTool && provided then ids + 3 else 0,
        false, NoArm, 0, 0, [], [], [], compaction, continues, focus, input)
  }

  function SubmittedRun(b: Book, cfg: Config, q: Submission): Run {
    NewRun(b.ids, q.controls.Some? && q.controls.value, cfg.providesTools, false, false, 0, q.tokens)
  }

  function CompactingRun(b: Book, q: Compaction): Run {
    NewRun(b.ids, false, false, true, q.continues, q.focus, 0)
  }

  /** The run enlisted: behind the started one when the session is busy, else in its slot. */
  function Enlisted(b: Book, run: Run, queue: bool): Book {
    var busy := Live(b, b.active);
    var waits := busy || queue;
    b.(runs := b.runs[b.ids := run.(queuedAdmission := waits, status := if waits then Queued else Running, subscribers := [b.feeds])],
       traces := b.traces[b.ids := []],
       streams := b.streams[b.feeds := Stream(b.ids, 0, [], false)],
       feeds := b.feeds + 1,
       active := if busy then b.active else Some(b.ids),
       reserved := if busy then Some(b.ids) else b.reserved,
       ids := b.ids + 4)
  }

  function AdmitBook(b: Book, run: Run, queue: bool): Book {
    var b1 := Enlisted(b, run, queue);
    var b2 := if Live(b, b.active) then b1 else Opened(b1, b.ids);
    Put(b2, b.ids, b2.runs[b.ids].(answered := true))
  }

  lemma {:induction false} StartsKnown(log: seq<Event>)
    ensures forall s | s in StartsOf(log) :: exists e :: e in log && e.run == s
  {
    if log != [] {
      var front := log[..|log| - 1];
      StartsKnown(front);
      forall s | s in StartsOf(log)
        ensures exists e :: e in log && e.run == s
      {
        if s in StartsOf(front) {
          var e :| e in front && e.run == s;
          assert e in log;
        } else {
          assert log[|log| - 1] in log;
        }
      }
    }
  }

  lemma {:induction false} StartsBelow(b: Book)
    requires Sound(b)
    ensures forall s | s in StartsOf(b.log) :: s < b.ids
  {
    hide RunSound, StreamsSound, SteersSound, SlotsSound, OrderSound, OfRun;
    StartsKnown(b.log);
  }

  /** The interactions of a run are told apart. */
  predicate Apart(run: Run) {
    && run.permissionID != 0 && run.inputID != 0 && run.permissionID != run.inputID
    && run.callID != run.permissionID && run.callID != run.inputID
  }

  ghost predicate NewDraft(run: Run) {
    && Draft(run) && run.nextSequence == 1 && run.pending == 0 && run.settlementID == 0
    && run.subscribers == [] && Apart(run)
  }

  lemma {:induction false} DraftSound(id: nat, feed: nat, run: Run)
    requires NewDraft(run.(subscribers := [])) && run.subscribers == [feed]
    ensures RunSound(id, run, [])
  {
    assert Kinds([]) == [];
  }

  lemma {:induction false} EnlistedStreams(b: Book, run: Run, queue: bool)
    requires Sound(b) && NewDraft(run)
    ensures var b' := Enlisted(b, run, queue); StreamsSound(b'.streams, b'.runs, b'.traces)
  {
    hide RunSound, LogSound, SteersSound, SlotsSound, OrderSound, StreamSound, StreamsSound, Unique, NewDraft;
    NotYet(b);
    var b' := Enlisted(b, run, queue);
    NewStream(b.ids, b.feeds, run, b'.runs[b.ids]);
    StreamAdded(b.streams, b.runs, b.traces, b.ids, b.feeds, b'.runs[b.ids]);
  }

  lemma {:induction false} StreamAdded(
    streams: map<nat, Stream>, runs: map<nat, Run>, traces: map<nat, seq<Event>>, id: nat, feed: nat, run: Run)
    requires StreamsSound(streams, runs, traces) && id !in runs && feed !in streams && run.subscribers == [feed]
    requires StreamSound(feed, Stream(id, 0, [], false), run, [])
    ensures StreamsSound(streams[feed := Stream(id, 0, [], false)], runs[id := run], traces[id := []])
  {
    hide StreamSound;
    forall k | k in streams
      ensures streams[k].run != id && StreamSound(k, streams[k], runs[streams[k].run], traces[streams[k].run])
    {
    }
  }

  lemma {:induction false} NewStream(ids: nat, feed: nat, run: Run, run': Run)
    requires NewDraft(run) && run' == run.(queuedAdmission := run'.queuedAdmission, status := run'.status, subscribers := [feed])
    ensures StreamSound(feed, Stream(ids, 0, [], false), run', []) && Unique(run'.subscribers)
  {
  }

  lemma {:induction false} EnlistedSteers(b: Book, run: Run, queue: bool)
    requires Sound(b) && NewDraft(run)
    ensures var b' := Enlisted(b, run, queue); SteersSound(b'.answers, b'.settled, b'.runs, b'.traces, b'.ids)
  {
    hide RunSound, LogSound, StreamsSound, SlotsSound, OrderSound, AnswerSound;
    NotYet(b);
    var b' := Enlisted(b, run, queue);
    var run' := b'.runs[b.ids];
    assert run'.steers == [];
    AnswersUpdate(b.answers, b.settled, b.settled, b.runs, b.traces, b.ids, b'.ids, b.ids, run', []);
    SettlesUpdate(b.answers, b.settled, b.settled, b.runs, b.traces, b.ids, run', []);
  }

  lemma {:induction false} EnlistedSound(b: Book, run: Run, queue: bool)
    requires Sound(b) && NewDraft(run) && !(Live(b, b.active) && Live(b, b.reserved))
    ensures Sound(Enlisted(b, run, queue))
  {
    hide RunSound, LogSound, StreamsSound, SteersSound, StartsOf;
    var b' := Enlisted(b, run, queue);
    EnlistedStreams(b, run, queue);
    EnlistedSteers(b, run, queue);
    DraftSound(b.ids, b.feeds, b'.runs[b.ids]);
    StartsBelow(b);
    assert b.ids !in b.traces;
    LogAdmits(b.log, b.traces, b.ids);
  }

  /** Admitting a run: a fresh id; behind the started run when the session is busy, and otherwise
      opened on the spot. */
  lemma {:induction false} AdmitKeeps(b: Book, run: Run, queue: bool)
    requires Inv(b) && !b.closed && NewDraft(run) && !(Live(b, b.active) && Live(b, b.reserved))
    ensures var b' := AdmitBook(b, run, queue);
      && Inv(b') && b.log <= b'.log && b.ids !in b.runs && b.ids in b'.runs
      && (if Live(b, b.active) then b'.log == b.log && b'.reserved == Some(b.ids) && b'.active == b.active
          else StartsOf(b'.log) == StartsOf(b.log) + [b.ids])
  {
    hide Sound, StartsOf, Steady, FocusOf, Opened, OpeningScript, Kinds;
    var b1, id := Enlisted(b, run, queue), b.ids;
    EnlistedSound(b, run, queue);
    SlotsOf(b);
    NotYet(b);
    forall o | o in b.runs
      ensures SteadyAt(b1, o)
    {
      assert SteadyAt(b, o);
    }
    if Live(b, b.active) {
      var r' := b1.runs[id].(answered := true);
      PutSound(b1, id, r');
      DraftSteady(b1, id);
      InvButMoves(b1, Put(b1, id, r'), id);
    } else {
      DraftUnbegun(b1, id);
      OpenedKeeps(b1, id);
      AdmittedInv(b1, Opened(b1, id), id);
    }
  }

  lemma {:induction false} NotYet(b: Book)
    requires Sound(b)
    ensures b.ids !in b.runs && b.ids !in b.traces && b.ids > 0
  {
    hide RunSound, LogSound, StreamsSound, SteersSound, SlotsSound, OrderSound;
  }

  lemma {:induction false} DraftSteady(b: Book, id: nat)
    requires Sound(b) && id in b.runs && id in b.traces && b.traces[id] == [] && Draft(b.runs[id])
    ensures SteadyAt(Put(b, id, b.runs[id].(answered := true)), id)
  {
    hide Sound;
    KnownRun(b, id);
  }

  lemma {:induction false} DraftUnbegun(b: Book, id: nat)
    requires Sound(b) && id in b.runs && id in b.traces && b.traces[id] == [] && Draft(b.runs[id])
    requires b.active == Some(id) && b.reserved.None?
    ensures Unbegun(b, id)
  {
    hide Sound;
  }

  lemma {:induction false} AdmittedInv(b1: Book, b2: Book, id: nat)
    requires OpenedWell(b1, b2, id) && !b1.closed
    requires forall o | o in b1.runs && o != id :: SteadyAt(b1, o)
    ensures Inv(Put(b2, id, b2.runs[id].(answered := true)))
  {
    hide Sound, Poised, Steady, FocusOf;
    var r' := b2.runs[id].(answered := true);
    var b3 := Put(b2, id, r');
    PutSound(b2, id, r');
    forall o | o in b3.runs && o != id
      ensures SteadyAt(b3, o)
    {
      assert SteadyAt(b1, o);
    }
    if r'.terminal {
      TerminalSteady(b3, id);
    } else {
      PoisedAnswered(b2.runs[id], FocusAt(b2, id));
      WaitingSteady(b3, id);
    }
  }

  lemma {:induction false} PoisedAnswered(run: Run, f: Focus)
    requires Poised(run, f)
    ensures Poised(run.(answered := true), f)
  {
  }

  // ------------------------------------------------------------ steer

  datatype Target = Aim(run: nat) | Miss(reason: SteerReason, at: Option<nat>)

  function SlotTarget(b: Book, slot: Option<nat>): Option<Target> {
    if !Live(b, slot) || !b.runs[slot.value].started then None
    else if b.runs[slot.value].status.Cancelling? then Some(Miss(NotSteerable, slot))
    else Some(Aim(slot.value))
  }

  function SteerTarget(b: Book, target: nat): Target {
    if target != 0 then
      if target !in b.runs then Miss(UnknownTarget, None)
      else
        var run := b.runs[target];
        if run.terminal then Miss(TargetTerminal, Some(target))
        else if run.status.Cancelling? then Miss(NotSteerable, Some(target))
        else if !run.started then Miss(TargetQueued, Some(target))
        else Aim(target)
    else if SlotTarget(b, b.active).Some? then SlotTarget(b, b.active).value
    else if SlotTarget(b, b.reserved).Some? then SlotTarget(b, b.reserved).value
    else Miss(NoActiveRun, None)
  }

  function SteerRefusal(b: Book, cfg: Config, q: Submission): Option<Refusal> {
    if q.sessionID == "" || q.messages == 0 then Some(InvalidSubmission)
    else if q.steerControls then Some(UnsupportedControl)
    else if b.closed then Some(SessionClosed)
    else if q.sessionID != cfg.sessionID then Some(RunNotFound)
    else match SteerTarget(b, q.target)
      case Aim(_) => None
      case Miss(reason, at) =>
        Some(SteerRefused(reason, if at.Some? && at.value in b.runs then Some(b.runs[at.value].nextSequence - 1) else None))
  }

  function SteeredBook(b: Book, id: nat, envelope: nat): Book
    requires id in b.runs && b.runs[id].nextSequence > 0
  {
    var run := b.runs[id];
    b.(runs := b.runs[id := run.(steers := run.steers + [Steer(b.ids, envelope)],
                                  admittedSteers := run.admittedSteers + [envelope])],
       answers := b.answers[b.ids := Answer(id, run.nextSequence - 1)],
       ids := b.ids + 1)
  }

  lemma {:induction false} SteerTargets(b: Book, target: nat)
    requires Sound(b)
    ensures var t := SteerTarget(b, target);
      t.Aim? ==> t.run in b.runs && b.runs[t.run].started && !b.runs[t.run].terminal
  {
    hide Sound;
  }

  lemma {:induction false} SteeredHolds(steers: seq<Steer>, x: Steer)
    ensures forall s :: Holds(steers + [x], s) <==> Holds(steers, s) || s == x.submission
    ensures Distinct(steers) && !Holds(steers, x.submission) ==> Distinct(steers + [x])
  {
    forall s
      ensures Holds(steers + [x], s) <==> Holds(steers, s) || s == x.submission
    {
      HoldsMember(steers, s);
      HoldsMember(steers + [x], s);
    }
  }

  lemma {:induction false} SteeredRun(b: Book, id: nat, envelope: nat)
    requires Sound(b) && id in b.runs && b.runs[id].started && !b.runs[id].terminal
    ensures b.runs[id].nextSequence > 0 && id in b.traces
    ensures var run' := SteeredBook(b, id, envelope).runs[id];
      && RunSound(id, run', b.traces[id])
      && FocusOf(run', b.traces[id]) == FocusOf(b.runs[id], b.traces[id]).(steers := run'.steers)
    ensures !Holds(b.runs[id].steers, b.ids)
  {
    hide Sound, RunSound, FocusOf, Holds;
    KnownRun(b, id);
    SteeredFresh(b, id);
    SteersAdded(id, b.runs[id], SteeredBook(b, id, envelope).runs[id], Steer(b.ids, envelope), b.traces[id]);
  }

  lemma {:induction false} SteeredFresh(b: Book, id: nat)
    requires Sound(b) && id in b.runs
    ensures !Holds(b.runs[id].steers, b.ids)
  {
    hide RunsSound, LogSound, StreamsSound, SlotsSound, OrderSound, AnswerSound;
    assert SteersOf(id, b.runs[id], b.traces[id], b.answers, b.settled);
    HoldsMember(b.runs[id].steers, b.ids);
  }

  lemma {:induction false} SteersAdded(id: nat, run: Run, run': Run, x: Steer, trace: seq<Event>)
    requires RunSound(id, run, trace) && !run.terminal && !Holds(run.steers, x.submission)
    requires run' == run.(steers := run.steers + [x], admittedSteers := run'.admittedSteers)
    ensures RunSound(id, run', trace) && FocusOf(run', trace) == FocusOf(run, trace).(steers := run'.steers)
  {
    SteeredHolds(run.steers, x);
  }

  lemma {:induction false} SteeredAnswers(b: Book, id: nat, envelope: nat)
    requires AnswersSound(b.answers, b.settled, b.runs, b.traces, b.ids) && b.ids > 0
    requires id in b.runs && id in b.traces && b.runs[id].nextSequence == |b.traces[id]| + 1
    ensures var b' := SteeredBook(b, id, envelope); AnswersSound(b'.answers, b'.settled, b'.runs, b'.traces, b'.ids)
  {
    hide Holds;
    var b' := SteeredBook(b, id, envelope);
    SteeredHolds(b.runs[id].steers, Steer(b.ids, envelope));
    assert b.ids !in b.answers && b.ids !in b.settled;
    assert forall s | s in b.answers :: AnswerSound(s, b.answers[s], b.runs[b.answers[s].run], b.traces[b.answers[s].run], b.settled);
  }

  lemma {:induction false} SteeredSettles(b: Book, id: nat, envelope: nat)
    requires SettlesSound(b.answers, b.settled, b.runs, b.traces) && b.ids !in b.answers
    requires id in b.runs && id in b.traces && b.runs[id].nextSequence > 0
    ensures var b' := SteeredBook(b, id, envelope); SettlesSound(b'.answers, b'.settled, b'.runs, b'.traces)
  {
    var b' := SteeredBook(b, id, envelope);
    forall o | o in b'.runs
      ensures SteersOf(o, b'.runs[o], b'.traces[o], b'.answers, b'.settled)
    {
      assert SteersOf(o, b.runs[o], b.traces[o], b.answers, b.settled);
    }
  }

  lemma {:induction false} SteeredSteers(b: Book, id: nat, envelope: nat)
    requires Sound(b) && id in b.runs && id in b.traces && b.runs[id].nextSequence == |b.traces[id]| + 1
    ensures var b' := SteeredBook(b, id, envelope); SteersSound(b'.answers, b'.settled, b'.runs, b'.traces, b'.ids)
  {
    hide RunsSound, LogSound, StreamsSound, SlotsSound, OrderSound, AnswerSound, SettlesSound;
    assert b.ids !in b.answers;
    SteeredAnswers(b, id, envelope);
    SteeredSettles(b, id, envelope);
  }

  lemma {:induction false} SteeredSound(b: Book, id: nat, envelope: nat)
    requires Sound(b) && id in b.runs && b.runs[id].started && !b.runs[id].terminal
    ensures b.runs[id].nextSequence > 0 && Sound(SteeredBook(b, id, envelope))
  {
    hide RunSound, LogSound, StreamsSound, SteersSound, FocusOf, StartsOf;
    KnownRun(b, id);
    SteeredRun(b, id, envelope);
    SteeredSteers(b, id, envelope);
    SteeredStreams(b, id, envelope);
  }

  /** A steer answered at a sequence waits on its run and changes nothing else. */
  lemma {:induction false} SteerKeeps(b: Book, id: nat, envelope: nat)
    requires Inv(b) && id in b.runs && b.runs[id].started && !b.runs[id].terminal
    ensures b.runs[id].nextSequence > 0 && Inv(SteeredBook(b, id, envelope))
  {
    hide Sound, RunSound, FocusOf, Poised, Draft;
    KnownRun(b, id);
    SteeredSound(b, id, envelope);
    SteeredRun(b, id, envelope);
    var b' := SteeredBook(b, id, envelope);
    assert SteadyAt(b, id);
    PoisedSteered(b.runs[id], b'.runs[id], FocusAt(b, id));
    forall o | o in b'.runs && o != id
      ensures SteadyAt(b', o)
    {
      assert SteadyAt(b, o);
    }
  }

  lemma {:induction false} SteeredStreams(b: Book, id: nat, envelope: nat)
    requires Sound(b) && id in b.runs && b.runs[id].nextSequence > 0
    ensures StreamsSound(b.streams, SteeredBook(b, id, envelope).runs, b.traces)
  {
    hide RunSound, LogSound, SteersSound, SlotsSound, OrderSound;
    assert b.traces == b.traces[id := b.traces[id]];
    StreamsUpdate(b.streams, b.streams, b.runs, b.traces, id, SteeredBook(b, id, envelope).runs[id], b.traces[id]);
  }

  lemma {:induction false} PoisedSteered(run: Run, run': Run, f: Focus)
    requires Poised(run, f) && run' == run.(steers := run'.steers, admittedSteers := run'.admittedSteers)
    ensures Poised(run', f.(steers := run'.steers))
  {
  }
}
