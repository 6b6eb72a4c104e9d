/** The events a run publishes, and the protocol they follow, stated as an automaton over
    one run's events that knows nothing of the session producing them. */
module RunEvents {
  import opened Basics

  datatype Status = Queued | Running | WaitingForInput | Cancelling | Completed | Failed | Cancelled

  datatype Reason = Requested | Threshold | Overflow

  datatype Outcome = OutcomeCompleted | OutcomeFailed | OutcomeCancelled

  datatype Kind =
    | RunStarted
    | RunCompleted(stop: string)
    | RunFailed
    | RunCancelled
    | StatusUpdated(status: Status)
    | ContentDelta
    | CallRequested
    | CallStarted
    | CallCompleted
    | CallFailed
    | CallCancelled
    | PermissionRequested
    | PermissionResolved(granted: bool)
    | InputRequested
    | InputResolved(submitted: bool)
    | CompactionStarted(compaction: nat, reason: Reason)
    | CompactionEnded(compaction: nat, outcome: Outcome, withError: bool)
    | SteerApplied(submission: nat)
    | SteerDropped(submission: nat)

  /** A published envelope; ids are positive. */
  datatype Event = Event(id: nat, run: nat, sequence: nat, kind: Kind)

  predicate Terminal(k: Kind) {
    k.RunCompleted? || k.RunFailed? || k.RunCancelled?
  }

  /** The submission a steer settlement names, or 0. */
  function SettledBy(k: Kind): nat {
    match k
    case SteerApplied(s) => s
    case SteerDropped(s) => s
    case _ => 0
  }

  datatype Call = NoCall | CallOpen | CallRunning | CallShut

  datatype Gate = Unopened | Open | Shut

  datatype Track = Track(started: bool, terminal: bool, call: Call, permission: Gate, input: Gate, compaction: nat)

  const UNSEEN := Track(false, false, NoCall, Unopened, Unopened, 0)

  predicate AllShut(t: Track) {
    !t.call.CallOpen? && !t.call.CallRunning? && !t.permission.Open? && !t.input.Open? && t.compaction == 0
  }

  /** The next state of the protocol, or None when the event is out of place. */
  function Advance(t: Track, k: Kind): Option<Track> {
    if t.terminal then None
    else if !t.started then
      match k
      case RunStarted => Some(t.(started := true))
      case RunCancelled => Some(t.(terminal := true))
      case _ => None
    else if Terminal(k) then
      if AllShut(t) then Some(t.(terminal := true)) else None
    else
      match k
      case RunStarted => None
      case CallRequested =>
        if t.call.NoCall? && !t.permission.Open? && !t.input.Open? then Some(t.(call := CallOpen)) else None
      case CallStarted =>
        if t.call.CallOpen? && !t.permission.Open? then Some(t.(call := CallRunning)) else None
      case CallCompleted => if t.call.CallRunning? then Some(t.(call := CallShut)) else None
      case CallFailed => if t.call.CallRunning? then Some(t.(call := CallShut)) else None
      case CallCancelled =>
        if (t.call.CallOpen? && !t.permission.Open?) || t.call.CallRunning? then Some(t.(call := CallShut)) else None
      case PermissionRequested =>
        if t.permission.Unopened? && t.call.CallOpen? then Some(t.(permission := Open)) else None
      case PermissionResolved(_) => if t.permission.Open? then Some(t.(permission := Shut)) else None
      case InputRequested =>
        if t.input.Unopened? && AllShut(t) then Some(t.(input := Open)) else None
      case InputResolved(_) => if t.input.Open? then Some(t.(input := Shut)) else None
      case CompactionStarted(c, _) => if t.compaction == 0 && c != 0 then Some(t.(compaction := c)) else None
      case CompactionEnded(c, _, _) => if t.compaction == c != 0 then Some(t.(compaction := 0)) else None
      case _ => Some(t)
  }

  function Kinds(trace: seq<Event>): seq<Kind> {
    seq(|trace|, i requires 0 <= i < |trace| => trace[i].kind)
  }

  function TrackOf(ks: seq<Kind>): Option<Track> {
    if ks == [] then Some(UNSEEN)
    else match TrackOf(ks[..|ks| - 1])
      case None => None
      case Some(t) => Advance(t, ks[|ks| - 1])
  }

  lemma {:induction false} TrackSnoc(ks: seq<Kind>, k: Kind)
    ensures TrackOf(ks + [k]) == match TrackOf(ks) case None => None case Some(t) => Advance(t, k)
  {
    assert (ks + [k])[..|ks|] == ks;
  }

  // ------------------------------------------------------------ what the automaton means

  predicate Opens(k: Kind) {
    k.CallRequested? || k.PermissionRequested? || k.InputRequested? || k.CompactionStarted?
  }

  /** The event closes what the other one opened. */
  predicate Closes(opening: Kind, k: Kind) {
    match opening
    case CallRequested => k.CallCompleted? || k.CallFailed? || k.CallCancelled?
    case PermissionRequested => k.PermissionResolved?
    case InputRequested => k.InputResolved?
    case CompactionStarted(c, _) => k.CompactionEnded? && k.compaction == c
    case _ => false
  }

  predicate StillOpen(t: Track, opening: Kind) {
    match opening
    case CallRequested => t.call.CallOpen? || t.call.CallRunning?
    case PermissionRequested => t.permission.Open?
    case InputRequested => t.input.Open?
    case CompactionStarted(c, _) => t.compaction == c != 0
    case _ => false
  }

  ghost predicate ClosedWithin(ks: seq<Kind>, i: nat)
    requires i < |ks|
  {
    exists j :: i < j < |ks| && Closes(ks[i], ks[j])
  }

  lemma {:induction false} OpeningsTracked(ks: seq<Kind>, i: nat)
    requires TrackOf(ks).Some? && i < |ks| && Opens(ks[i])
    ensures ClosedWithin(ks, i) || StillOpen(TrackOf(ks).value, ks[i])
    decreases |ks|
  {
    var front, last := ks[..|ks| - 1], ks[|ks| - 1];
    if i < |front| {
      OpeningsTracked(front, i);
      if ClosedWithin(front, i) {
        var j :| i < j < |front| && Closes(front[i], front[j]);
        assert Closes(ks[i], ks[j]);
      } else if Closes(ks[i], last) {
        assert ClosedWithin(ks, i);
      }
    }
  }

  lemma {:induction false} AdvanceFlags(t: Track, k: Kind)
    requires Advance(t, k).Some?
    ensures var t' := Advance(t, k).value;
      !t.terminal && t'.terminal == Terminal(k) && t'.started == (t.started || k.RunStarted?)
  {
  }

  lemma {:induction false} TrackFlags(ks: seq<Kind>)
    requires TrackOf(ks).Some?
    ensures var t := TrackOf(ks).value;
      && (t.terminal <==> exists i :: 0 <= i < |ks| && Terminal(ks[i]))
      && (t.terminal ==> AllShut(t))
      && (ks == [] <==> t == UNSEEN)
      && (!t.started ==> ks == [] || ks == [RunCancelled])
      && (t.started ==> ks != [] && ks[0].RunStarted?)
    ensures forall i | 0 <= i < |ks| - 1 :: !Terminal(ks[i])
    ensures forall i | 0 < i < |ks| :: !ks[i].RunStarted?
    decreases |ks|
  {
    if ks != [] {
      var front := ks[..|ks| - 1];
      TrackFlags(front);
      assert forall i | 0 <= i < |front| :: ks[i] == front[i];
      if front != [] {
        assert ks[0] == front[0];
      } else {
        assert ks == [ks[0]];
      }
    }
  }

  /** What acceptance says of a settled run: it began with run.started or is a lone
      pre-start run.cancelled, its only terminal event is its last, and whatever it
      opened it closed. */
  lemma {:induction false} AcceptedMeans(ks: seq<Kind>)
    requires TrackOf(ks).Some? && TrackOf(ks).value.terminal
    ensures ks != [] && (ks == [RunCancelled] || ks[0].RunStarted?)
    ensures forall i | 0 <= i < |ks| :: Terminal(ks[i]) <==> i == |ks| - 1
    ensures forall i | 0 < i < |ks| :: !ks[i].RunStarted?
    ensures forall i | 0 <= i < |ks| && Opens(ks[i]) :: ClosedWithin(ks, i)
  {
    TrackFlags(ks);
    forall i | 0 <= i < |ks| && Opens(ks[i])
      ensures ClosedWithin(ks, i)
    {
      OpeningsTracked(ks, i);
      assert AllShut(TrackOf(ks).value);
    }
  }
}
