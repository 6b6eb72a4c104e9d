/** One run of the in-memory session as a value: what publishing an event does to it, and
    what must hold of it beside the events it has published. */
module MemoryRun {
  import opened Basics
  import opened RunEvents
  import opened CompactionChecker

  datatype Stage = StagePermission | StageCall | StageInput | StageTerminal

  datatype Arm = NoArm | ArmAcknowledge | ArmResult | ArmError

  datatype Steer = Steer(submission: nat, request: nat)

  /** Ids are positive; 0 stands for an absent one. */
  datatype Run = Run(
    status: Status, started: bool, queuedAdmission: bool, answered: bool,
    pending: nat, stage: Stage, callsTool: bool, nextSequence: nat, terminal: bool,
    permissionID: nat, inputID: nat, callID: nat,
    acknowledged: bool, settledArm: Arm, settledRequest: nat, settlementID: nat,
    subscribers: seq<nat>, steers: seq<Steer>, admittedSteers: seq<nat>,
    compaction: bool, compactContinue: bool, focus: nat, input: nat)

  function Without(steers: seq<Steer>, submission: nat): seq<Steer> {
    if steers == [] then []
    else if steers[0].submission == submission then Without(steers[1..], submission)
    else [steers[0]] + Without(steers[1..], submission)
  }

  predicate Holds(steers: seq<Steer>, submission: nat) {
    exists i :: 0 <= i < |steers| && steers[i].submission == submission
  }

  predicate Distinct(steers: seq<Steer>) {
    forall i, j | 0 <= i < j < |steers| :: steers[i].submission != steers[j].submission
  }

  lemma {:induction false} HoldsMember(steers: seq<Steer>, submission: nat)
    ensures Holds(steers, submission) <==> exists x :: x in steers && x.submission == submission
  {
    if Holds(steers, submission) {
      var i :| 0 <= i < |steers| && steers[i].submission == submission;
      assert steers[i] in steers;
    }
  }

  lemma {:induction false} WithoutMembers(steers: seq<Steer>, submission: nat)
    ensures forall x :: x in Without(steers, submission) <==> x in steers && x.submission != submission
  {
    if steers != [] {
      WithoutMembers(steers[1..], submission);
      assert steers == [steers[0]] + steers[1..];
    }
  }

  lemma {:induction false} DistinctFront(x: Steer, rest: seq<Steer>)
    ensures Distinct([x] + rest) <==> Distinct(rest) && forall y | y in rest :: y.submission != x.submission
  {
    var all := [x] + rest;
    assert forall i | 0 <= i < |rest| :: all[i + 1] == rest[i];
    if Distinct(all) {
      forall i, j | 0 <= i < j < |rest|
        ensures rest[i].submission != rest[j].submission
      {
        assert all[i + 1] == rest[i] && all[j + 1] == rest[j];
      }
      forall y | y in rest
        ensures y.submission != x.submission
      {
        var i :| 0 <= i < |rest| && rest[i] == y;
        assert all[0] == x && all[i + 1] == y;
      }
    }
  }

  lemma {:induction false} WithoutDistinct(steers: seq<Steer>, submission: nat)
    requires Distinct(steers)
    ensures Distinct(Without(steers, submission))
  {
    if steers != [] {
      hide Distinct;
      assert steers == [steers[0]] + steers[1..];
      DistinctFront(steers[0], steers[1..]);
      WithoutDistinct(steers[1..], submission);
      WithoutMembers(steers[1..], submission);
      DistinctFront(steers[0], Without(steers[1..], submission));
    }
  }

  lemma {:induction false} WithoutNone(steers: seq<Steer>, submission: nat)
    requires forall x | x in steers :: x.submission != submission
    ensures Without(steers, submission) == steers
  {
    if steers != [] {
      assert steers[0] in steers && forall x | x in steers[1..] :: x in steers;
      WithoutNone(steers[1..], submission);
    }
  }

  lemma {:induction false} WithoutKeeps(steers: seq<Steer>, submission: nat)
    ensures forall x :: x in Without(steers, submission) <==> x in steers && x.submission != submission
    ensures Distinct(steers) ==> Distinct(Without(steers, submission))
    ensures !Holds(steers, submission) ==> Without(steers, submission) == steers
  {
    hide Without, Distinct, Holds;
    WithoutMembers(steers, submission);
    HoldsMember(steers, submission);
    if Distinct(steers) {
      WithoutDistinct(steers, submission);
    }
    if !Holds(steers, submission) {
      WithoutNone(steers, submission);
    }
  }

  lemma {:induction false} WithoutHolds(steers: seq<Steer>, submission: nat, s: nat)
    ensures Holds(Without(steers, submission), s) <==> s != submission && Holds(steers, s)
  {
    WithoutKeeps(steers, submission);
    HoldsMember(steers, s);
    HoldsMember(Without(steers, submission), s);
  }

  function StatusAfter(run: Run, k: Kind): Status {
    match k
    case RunCompleted(_) => Completed
    case RunFailed => Failed
    case RunCancelled => Cancelled
    case _ => run.status
  }

  predicate EndsCall(k: Kind) {
    k.CallCompleted? || k.CallFailed? || k.CallCancelled?
  }

  function PendingAfter(run: Run, k: Kind): nat {
    if Terminal(k) then 0
    else if k.PermissionRequested? then run.permissionID
    else if k.InputRequested? then run.inputID
    else if k.PermissionResolved? || k.InputResolved? then 0
    else if k.CallRequested? && run.callID != 0 then run.callID
    else if EndsCall(k) && run.callID != 0 && run.pending == run.callID then 0
    else run.pending
  }

  function SettlementAfter(run: Run, k: Kind, eventID: nat): nat {
    if EndsCall(k) && run.callID != 0 && run.pending == run.callID then eventID else run.settlementID
  }

  /** The run after one publication. */
  function RunAfter(run: Run, k: Kind, eventID: nat): Run {
    run.(nextSequence := run.nextSequence + 1,
         pending := PendingAfter(run, k),
         settlementID := SettlementAfter(run, k, eventID),
         terminal := run.terminal || Terminal(k),
         status := StatusAfter(run, k),
         steers := if SettledBy(k) != 0 then Without(run.steers, SettledBy(k)) else run.steers,
         subscribers := if Terminal(k) then [] else run.subscribers)
  }

  /** What the protocol, the checker and the pending steers say of a run, and whether its tool
      is one the control layer provides. */
  datatype Focus = Focus(t: Track, c: Check, steers: seq<Steer>, provided: bool)

  /** The focus after an event the run may publish, or None. */
  function Next(f: Focus, k: Kind): Option<Focus> {
    match Advance(f.t, k)
    case None => None
    case Some(t) =>
      var c := Observe(f.c, k);
      if c.diagnostics != [] then None
      else if k.PermissionRequested? && f.provided then None
      else if (k.SteerApplied? || k.SteerDropped?) && !(SettledBy(k) != 0 && Holds(f.steers, SettledBy(k))) then None
      else if Terminal(k) && f.steers != [] then None
      else Some(f.(t := t, c := c, steers := if SettledBy(k) != 0 then Without(f.steers, SettledBy(k)) else f.steers))
  }

  function NextAll(f: Focus, ks: seq<Kind>): Option<Focus> {
    if ks == [] then Some(f)
    else Then(NextAll(f, ks[..|ks| - 1]), ks[|ks| - 1])
  }

  function Then(o: Option<Focus>, k: Kind): Option<Focus> {
    match o
    case None => None
    case Some(f) => Next(f, k)
  }

  lemma {:induction false} NextSnoc(f: Focus, ks: seq<Kind>, k: Kind)
    ensures NextAll(f, ks + [k]) == Then(NextAll(f, ks), k)
  {
    assert (ks + [k])[..|ks|] == ks;
  }

  lemma {:induction false} NextScript(f: Focus, a: Kind, b: Kind, c: Kind)
    ensures NextAll(f, [a]) == Next(f, a)
    ensures NextAll(f, [a, b]) == Then(Next(f, a), b)
    ensures NextAll(f, [a, b, c]) == Then(Then(Next(f, a), b), c)
  {
    assert [a] == [] + [a] && [a, b] == [a] + [b] && [a, b, c] == [a, b] + [c];
    NextSnoc(f, [], a);
    NextSnoc(f, [a], b);
    NextSnoc(f, [a, b], c);
  }

  // ------------------------------------------------------------ a run beside its trace

  /** The interaction the protocol leaves pending. */
  function PendingOf(run: Run, t: Track): nat {
    if t.permission.Open? then run.permissionID
    else if t.input.Open? then run.inputID
    else if (t.call.CallOpen? || t.call.CallRunning?) && run.callID != 0 then run.callID
    else 0
  }

  ghost predicate Tracked(run: Run, trace: seq<Event>) {
    TrackOf(Kinds(trace)).Some?
  }

  ghost function FocusOf(run: Run, trace: seq<Event>): Focus
    requires Tracked(run, trace)
  {
    Focus(TrackOf(Kinds(trace)).value, CheckOf(run.compaction, run.compactContinue, Kinds(trace)), run.steers,
          run.callID != 0)
  }

  /** The run's fields say what the protocol says. */
  ghost predicate Follows(run: Run, t: Track) {
    && t.terminal == run.terminal
    && (t.started ==> run.started)
    && (!t.started ==> t == UNSEEN.(terminal := t.terminal))
    && run.pending == PendingOf(run, t)
    && (t.permission.Open? ==> t.call.CallOpen?)
    && (t.input.Open? ==> !t.permission.Open? && !t.call.CallOpen? && !t.call.CallRunning?)
    && (run.callID != 0 ==> !t.permission.Open? && (run.settlementID != 0 <==> t.call.CallShut?))
  }

  ghost predicate Agrees(run: Run, f: Focus) {
    && Follows(run, f.t)
    && f.c.terminal == f.t.terminal && f.c.started == f.t.started && f.c.diagnostics == []
    && (run.terminal ==> run.steers == [] && run.subscribers == [])
    && f.steers == run.steers && Distinct(run.steers) && f.provided == (run.callID != 0)
  }

  ghost predicate Numbered(id: nat, trace: seq<Event>) {
    forall i | 0 <= i < |trace| :: trace[i].run == id && trace[i].sequence == i + 1
  }

  /** A run is sound when its events are numbered from 1 without gaps, follow the protocol,
      draw no compaction diagnostic, and its fields say what its events say. */
  ghost predicate RunSound(id: nat, run: Run, trace: seq<Event>) {
    && run.nextSequence == |trace| + 1
    && Numbered(id, trace)
    && Tracked(run, trace)
    && Agrees(run, FocusOf(run, trace))
  }

  lemma {:induction false} KindsSnoc(trace: seq<Event>, e: Event)
    ensures Kinds(trace + [e]) == Kinds(trace) + [e.kind]
  {
  }

  lemma {:induction false} FollowsCall(run: Run, t: Track, k: Kind, eventID: nat)
    requires Follows(run, t) && eventID != 0 && Advance(t, k).Some?
    requires k.CallRequested? || k.CallStarted? || EndsCall(k)
    ensures Follows(RunAfter(run, k, eventID), Advance(t, k).value)
  {
    match k
    case CallRequested =>
    case CallStarted =>
    case _ =>
  }

  lemma {:induction false} FollowsInteraction(run: Run, t: Track, k: Kind, eventID: nat)
    requires Follows(run, t) && eventID != 0 && Advance(t, k).Some?
    requires k.PermissionRequested? ==> run.callID == 0
    requires k.PermissionRequested? || k.PermissionResolved? || k.InputRequested? || k.InputResolved?
    ensures Follows(RunAfter(run, k, eventID), Advance(t, k).value)
  {
    match k
    case PermissionRequested =>
    case PermissionResolved(_) =>
    case InputRequested =>
    case InputResolved(_) =>
  }

  lemma {:induction false} FollowsNext(run: Run, t: Track, k: Kind, eventID: nat)
    requires Follows(run, t) && eventID != 0 && Advance(t, k).Some?
    requires k.RunStarted? ==> run.started
    requires k.PermissionRequested? ==> run.callID == 0
    ensures Follows(RunAfter(run, k, eventID), Advance(t, k).value)
  {
    hide Follows, RunAfter, Advance;
    if k.CallRequested? || k.CallStarted? || EndsCall(k) {
      FollowsCall(run, t, k, eventID);
    } else if k.PermissionRequested? || k.PermissionResolved? || k.InputRequested? || k.InputResolved? {
      FollowsInteraction(run, t, k, eventID);
    } else {
      FollowsOther(run, t, k, eventID);
    }
  }

  lemma {:induction false} FollowsOther(run: Run, t: Track, k: Kind, eventID: nat)
    requires Follows(run, t) && eventID != 0 && Advance(t, k).Some? && (k.RunStarted? ==> run.started)
    requires !k.CallRequested? && !k.CallStarted? && !EndsCall(k)
    requires !k.PermissionRequested? && !k.PermissionResolved? && !k.InputRequested? && !k.InputResolved?
    ensures Follows(RunAfter(run, k, eventID), Advance(t, k).value)
  {
    match k
    case RunStarted =>
    case RunCompleted(_) =>
    case RunFailed =>
    case RunCancelled =>
    case _ =>
  }

  lemma {:induction false} NextParts(f: Focus, k: Kind)
    requires Next(f, k).Some?
    ensures var g := Next(f, k).value;
      && Advance(f.t, k) == Some(g.t) && g.c == Observe(f.c, k) && g.c.diagnostics == []
      && g.steers == (if SettledBy(k) != 0 then Without(f.steers, SettledBy(k)) else f.steers)
      && (SettledBy(k) != 0 ==> Holds(f.steers, SettledBy(k)))
      && (Terminal(k) ==> g.steers == []) && (k.PermissionRequested? ==> !f.provided) && g.provided == f.provided
  {
  }

  lemma {:induction false} AgreesNext(run: Run, f: Focus, k: Kind, eventID: nat)
    requires Agrees(run, f) && eventID != 0
    requires Next(f, k).Some?
    requires k.RunStarted? ==> run.started
    ensures Agrees(RunAfter(run, k, eventID), Next(f, k).value)
  {
    NextParts(f, k);
    AdvanceFlags(f.t, k);
    FollowsNext(run, f.t, k, eventID);
    ObserveFlags(f.c, k);
    WithoutDistinct(run.steers, SettledBy(k));
  }

  lemma {:induction false} SoundAfter(id: nat, run: Run, trace: seq<Event>, e: Event)
    requires RunSound(id, run, trace)
    requires e.id != 0 && e.run == id && e.sequence == run.nextSequence
    requires Next(FocusOf(run, trace), e.kind).Some?
    requires e.kind.RunStarted? ==> run.started
    ensures RunSound(id, RunAfter(run, e.kind, e.id), trace + [e])
    ensures FocusOf(RunAfter(run, e.kind, e.id), trace + [e]) == Next(FocusOf(run, trace), e.kind).value
  {
    KindsSnoc(trace, e);
    TrackSnoc(Kinds(trace), e.kind);
    CheckSnoc(run.compaction, run.compactContinue, Kinds(trace), e.kind);
    AgreesNext(run, FocusOf(run, trace), e.kind, e.id);
  }

  // ------------------------------------------------------------ between operations

  /** A run admitted and not yet started. */
  ghost predicate Draft(run: Run) {
    && !run.started && !run.terminal && !run.status.Cancelling?
    && run.steers == [] && !run.acknowledged && run.settledArm.NoArm?
    && run.inputID != 0
    && (run.compaction ==> !run.callsTool)
    && run.stage == (if !run.callsTool then StageInput else if run.callID != 0 then StageCall else StagePermission)
  }

  /** The checker has nothing against any further event but another compaction. */
  predicate Calm(c: Check) {
    && c.diagnostics == [] && c.started && !c.terminal && c.open == 0
    && (c.compactionRun ==> c.begun && |c.tracks| == 1 && c.continues)
  }

  /** A started run waiting at one of its gates. */
  ghost predicate Poised(run: Run, f: Focus) {
    && run.started && !run.terminal && f.t.started && f.t.compaction == 0 && Calm(f.c)
    && (run.status.Running? || run.status.WaitingForInput?)
    && match run.stage
       case StagePermission =>
         run.callID == 0 && f.t.call.CallOpen? && f.t.permission.Open? && f.t.input.Unopened?
       case StageCall =>
         && run.callID != 0 && f.t.permission.Unopened? && f.t.input.Unopened? && run.settledArm.NoArm?
         && (if run.acknowledged then f.t.call.CallRunning? else f.t.call.CallOpen?)
       case StageInput => f.t.input.Open?
       case StageTerminal => false
  }

  /** What holds of every run between two operations. */
  ghost predicate Steady(run: Run, trace: seq<Event>)
    requires Tracked(run, trace)
  {
    && run.answered
    && (run.terminal || (if run.started then Poised(run, FocusOf(run, trace)) else trace == [] && Draft(run)))
  }

  predicate Plain(k: Kind) {
    !Terminal(k) && !k.RunStarted? && !k.CompactionStarted? && !k.CompactionEnded?
  }

  lemma {:induction false} CalmPlain(c: Check, k: Kind)
    requires Calm(c) && Plain(k)
    ensures Observe(c, k) == c
  {
  }

  lemma {:induction false} CalmTerminal(c: Check, k: Kind)
    requires Calm(c) && Terminal(k)
    ensures Observe(c, k).diagnostics == []
  {
  }

  function Applied(steers: seq<Steer>): seq<Kind> {
    seq(|steers|, i requires 0 <= i < |steers| => SteerApplied(steers[i].submission))
  }

  function Dropped(steers: seq<Steer>): seq<Kind> {
    seq(|steers|, i requires 0 <= i < |steers| => SteerDropped(steers[i].submission))
  }

  lemma {:induction false} DropFirst(steers: seq<Steer>)
    requires steers != [] && Distinct(steers)
    ensures Without(steers, steers[0].submission) == steers[1..]
    ensures Distinct(steers[1..])
  {
    WithoutKeeps(steers[1..], steers[0].submission);
  }

  lemma {:induction false} SettleOne(f: Focus, k: Kind)
    requires f.t.started && !f.t.terminal && Calm(f.c) && Distinct(f.steers) && f.steers != []
    requires (k.SteerApplied? || k.SteerDropped?) && SettledBy(k) == f.steers[0].submission != 0
    ensures Next(f, k) == Some(f.(steers := f.steers[1..]))
    ensures Distinct(f.steers[1..])
  {
    DropFirst(f.steers);
    CalmPlain(f.c, k);
    assert Holds(f.steers, f.steers[0].submission);
  }

  lemma {:induction false} DistinctRest(steers: seq<Steer>, n: nat)
    requires Distinct(steers) && n < |steers|
    ensures Distinct(steers[n..]) && Distinct(steers[n + 1..]) && steers[n..][1..] == steers[n + 1..] && steers[n..][0] == steers[n]
  {
  }

  /** Settling every pending steer in turn leaves none, and nothing else changes. */
  lemma {:induction false} SettleEach(f: Focus, ks: seq<Kind>, n: nat)
    requires f.t.started && !f.t.terminal && Calm(f.c) && Distinct(f.steers)
    requires forall i | 0 <= i < |f.steers| :: f.steers[i].submission != 0
    requires ks == Applied(f.steers) || ks == Dropped(f.steers)
    requires n <= |f.steers|
    ensures NextAll(f, ks[..n]) == Some(f.(steers := f.steers[n..]))
    ensures Distinct(f.steers[n..])
  {
    hide Calm, Next;
    if n > 0 {
      SettleEach(f, ks, n - 1);
      assert ks[..n][..n - 1] == ks[..n - 1];
      DistinctRest(f.steers, n - 1);
      hide Distinct;
      SettleOne(f.(steers := f.steers[n - 1..]), ks[n - 1]);
    }
  }
}
