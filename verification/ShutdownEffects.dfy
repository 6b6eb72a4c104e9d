/** Who leaves a hub session at each step of its shutdown, subscriber by subscriber, whom an end is put
    off for, and who is spared until the session closes. */
module ShutdownEffects {
  import opened Basics
  import opened HubShutdown

  /** Runs end for the subscribers that follow them; a closed session's all do. */
  predicate Follows(d: Desk, x: nat) {
    d.closed || x !in d.sessionOnly
  }

  predicate InCohort(d: Desk, x: nat) {
    d.deferred.Some? && x in d.deferred.value
  }

  /** A reader that exits with nothing to tell and nothing put off before. */
  predicate Silent(d: Desk, end: Option<bool>) {
    end.None? && !d.closed && d.pendingEnd.None? && d.deferred.None? && !d.finishDue
  }

  predicate Newer(d: Desk, run: nat) {
    run != d.run && SerialOf(d, run) > SerialOf(d, d.run)
  }

  /** Whether an attached subscriber leaves at a step. */
  predicate Leaves(d: Desk, s: Step, x: nat) {
    var failing := d.pendingEnd == Some(true) && InCohort(d, x);
    match s
    case Detach(gone) => x in gone
    case FailEvents => !d.closed && !d.closing
    case Start(_) => failing
    case Adopt(_, queued) => !queued && failing
    case Promote(run, terminal) => !terminal && Newer(d, run) && failing
    case Release => d.finishDue && d.readers == 0 && d.reservations == 1 && InCohort(d, x)
    case MarkClosed => (d.readers > 0 || d.reservations > 0) && failing
    case FinishSubs => true
    case Exit(run, end, exposed) =>
      var last := d.readers == 1 && d.reservations == 0;
      !Silent(d, end) &&
      if run == d.run then last && Follows(d, x)
      else
        || (end == Some(true) && x in exposed && x !in d.sessionOnly)
        || (last && if d.deferred.Some? then InCohort(d, x) else Follows(d, x))
    case _ => false
  }

  /** The subscribers after a step are those before it that do not leave, and the one that comes. */
  lemma {:induction false} WhoLeaves(d: Desk, s: Step, x: nat)
    requires Enabled(d, s)
    ensures x in Apply(d, s).subs <==>
      (x in d.subs && !Leaves(d, s, x)) || (s.Subscribe? && s.sub == x && !d.closed && !d.failed)
  {
    match s {
      case Exit(run, end, exposed) => WhoExits(d, run, end, exposed, x);
      case _ =>
    }
  }

  lemma {:induction false} WhoExits(d: Desk, run: nat, end: Option<bool>, exposed: set<nat>, x: nat)
    requires d.readers > 0
    ensures x in ExitDesk(d, run, end, exposed).subs <==> x in d.subs && !Leaves(d, Exit(run, end, exposed), x)
  {
    if !Silent(d, end) {
      var d0 := d.(readers := d.readers - 1);
      var d1 := Affected(d0, d.run == run, end, exposed);
      WhoAffected(d0, d.run == run, end, exposed, x);
      WhoBehind(d1, d.run == run, x);
      hide Affected, LeftBehind;
    }
  }

  lemma {:induction false} WhoAffected(d: Desk, current: bool, end: Option<bool>, exposed: set<nat>, x: nat)
    ensures var d' := Affected(d, current, end, exposed);
      && d'.readers == d.readers && d'.reservations == d.reservations && d'.closed == d.closed && d'.sessionOnly == d.sessionOnly
      && (x in d'.subs <==> x in d.subs && (current || end != Some(true) || x !in exposed || x in d.sessionOnly))
      && (d'.deferred.Some? <==> current || d.deferred.Some?)
      && (x in d.subs && current ==> (InCohort(d', x) <==> Follows(d, x))) && (!current ==> d'.deferred == d.deferred)
  {
  }

  lemma {:induction false} WhoBehind(d: Desk, current: bool, x: nat)
    ensures x in LeftBehind(d, current).subs <==>
      x in d.subs && (d.readers > 0 || d.reservations > 0 ||
        !(if !current && d.deferred.Some? then InCohort(d, x) else Follows(d, x)))
  {
  }

  /** Whom an end is put off for: when the current run's reader exits before the last one, or with
      reservations outstanding, those attached that follow runs; at closing, all attached that stay. A newer
      run, and the end once carried out, forget it. */
  lemma {:induction false} WhomDeferred(d: Desk, s: Step, x: nat)
    requires Enabled(d, s)
    ensures var d' := Apply(d, s);
      match s
      case Exit(run, end, _) =>
        if Silent(d, end) then d'.deferred == d.deferred && d'.finishDue == d.finishDue
        else if d.readers == 1 && d.reservations == 0 then d'.deferred.None? && d'.finishDue == d.finishDue
        else
          && d'.finishDue == (d.finishDue || d.readers == 1)
          && (run == d.run ==> d'.deferred.Some? && (InCohort(d', x) <==> x in d.subs && Follows(d, x)))
          && (run != d.run && (d.deferred.Some? || d.readers > 1) ==> d'.deferred == d.deferred)
      case MarkClosed =>
        if d.readers == 0 && d.reservations == 0 then d'.deferred == d.deferred && d'.finishing == d.finishing + 1
        else d'.deferred.Some? && (InCohort(d', x) <==> x in d'.subs) && d'.finishDue == (d.finishDue || d.readers == 0)
      case Start(_) => d'.deferred.None? && !d'.finishDue && d'.pendingEnd.None?
      case Adopt(_, queued) => if queued then d'.deferred == d.deferred && d'.finishDue == d.finishDue
                               else d'.deferred.None? && !d'.finishDue && d'.pendingEnd.None?
      case Promote(run, terminal) =>
        if !terminal && Newer(d, run) then d'.deferred.None? && !d'.finishDue && d'.pendingEnd.None?
        else d' == d
      case Release => if d.finishDue && d.readers == 0 && d.reservations == 1 then d'.deferred.None? && !d'.finishDue
                      else d'.deferred == d.deferred && d'.finishDue == d.finishDue
      case _ => d'.deferred == d.deferred && d'.finishDue == d.finishDue
  {
    match s {
      case Exit(run, end, exposed) =>
        if !Silent(d, end) {
          CohortAtExit(d, run, end, exposed, x);
        }
      case _ =>
    }
  }

  lemma {:induction false} CohortAtExit(d: Desk, run: nat, end: Option<bool>, exposed: set<nat>, x: nat)
    requires d.readers > 0 && !Silent(d, end)
    ensures var d' := ExitDesk(d, run, end, exposed);
      if d.readers == 1 && d.reservations == 0 then d'.deferred.None? && d'.finishDue == d.finishDue
      else
        && d'.finishDue == (d.finishDue || d.readers == 1)
        && (run == d.run ==> d'.deferred.Some? && (InCohort(d', x) <==> x in d.subs && Follows(d, x)))
        && (run != d.run && (d.deferred.Some? || d.readers > 1) ==> d'.deferred == d.deferred)
  {
  }

  /** The readers, the reservations, the run followed and the flags of a session after a step: a run
      started or adopted has a reader and the next serial, and is followed at once unless it was queued; a
      newer one is followed once it has published anything but its end. */
  function Standing(d: Desk, s: Step): Desk
    requires Enabled(d, s)
  {
    match s
    case FailEvents => if d.closed then d else d.(failed := true)
    case BeginClose => d.(closing := true)
    case UndoClose => d.(closing := false)
    case Reserve => d.(reservations := d.reservations + 1)
    case Release => d.(reservations := d.reservations - 1)
    case Start(run) => d.(readers := d.readers + 1, run := run, serials := d.serials[run := d.nextSerial + 1])
    case Adopt(run, queued) =>
      d.(readers := d.readers + 1, reservations := d.reservations - 1, serials := d.serials[run := d.nextSerial + 1],
         run := if queued then d.run else run)
    case Promote(run, terminal) => if !terminal && Newer(d, run) then d.(run := run) else d
    case Exit(_, _, _) => d.(readers := d.readers - 1)
    case MarkClosed =>
      d.(closed := true, finishing := if d.readers == 0 && d.reservations == 0 then d.finishing + 1 else d.finishing)
    case FinishSubs => d.(finishing := d.finishing - 1)
    case _ => d
  }

  lemma {:induction false} RunTaken(d: Desk, s: Step)
    requires Enabled(d, s) && (s.Start? || s.Adopt? || s.Promote?)
    ensures SameStand(Standing(d, s), Apply(d, s))
  {
    match s
    case Start(_) =>
    case Adopt(_, _) =>
    case Promote(_, _) =>
  }

  lemma {:induction false} ReleaseStands(d: Desk)
    requires d.reservations > 0
    ensures SameStand(d.(reservations := d.reservations - 1), ReleaseDesk(d))
  {
  }

  lemma {:induction false} CloseStands(d: Desk)
    ensures SameStand(Standing(d, MarkClosed), CloseDesk(d))
  {
  }

  lemma {:induction false} StepStands(d: Desk, s: Step)
    requires Enabled(d, s)
    ensures SameStand(Standing(d, s), Apply(d, s))
  {
    hide ExitDesk, StartDesk, AdoptDesk, PromoteDesk, ReleaseDesk, CloseDesk;
    match s {
      case Exit(run, end, exposed) => ExitStands(d, run, end, exposed);
      case Start(_) => RunTaken(d, s);
      case Adopt(_, _) => RunTaken(d, s);
      case Promote(_, _) => RunTaken(d, s);
      case Release => ReleaseStands(d);
      case MarkClosed => CloseStands(d);
      case _ =>
    }
  }

  /** Nothing but the subscribers and what is put off changed. */
  predicate SameStand(d: Desk, d': Desk) {
    && d'.readers == d.readers && d'.reservations == d.reservations && d'.finishing == d.finishing && d'.run == d.run
    && d'.serials == d.serials && d'.closed == d.closed && d'.closing == d.closing && d'.failed == d.failed
  }

  lemma {:induction false} AffectedStands(d: Desk, current: bool, end: Option<bool>, exposed: set<nat>)
    ensures SameStand(d, Affected(d, current, end, exposed))
  {
  }

  lemma {:induction false} BehindStands(d: Desk, current: bool)
    ensures SameStand(d, LeftBehind(d, current))
  {
  }

  lemma {:induction false} ExitStands(d: Desk, run: nat, end: Option<bool>, exposed: set<nat>)
    requires d.readers > 0
    ensures SameStand(d.(readers := d.readers - 1), ExitDesk(d, run, end, exposed))
  {
    hide Affected, LeftBehind;
    var d0 := d.(readers := d.readers - 1);
    AffectedStands(d0, d.run == run, end, exposed);
    BehindStands(Affected(d0, d.run == run, end, exposed), d.run == run);
  }

  // ------------------------------------------------------------ spared until the session closes

  /** Each subscriber attaches once. */
  ghost predicate OnceEach(steps: seq<Step>) {
    forall i, j | 0 <= i < j < |steps| && steps[i].Subscribe? && steps[j].Subscribe? :: steps[i].sub != steps[j].sub
  }

  function Attached(steps: seq<Step>): set<nat> {
    set i | 0 <= i < |steps| && steps[i].Subscribe? :: steps[i].sub
  }

  /** The cohort of an open session holds only subscribers that came, and none of the session alone. */
  ghost predicate Sparing(d: Desk, came: set<nat>) {
    && d.subs <= came && (d.deferred.Some? ==> d.deferred.value <= came)
    && (!d.closed && d.deferred.Some? ==> d.deferred.value !! d.sessionOnly) && (d.finishing > 0 ==> d.closed)
  }

  lemma {:induction false} SparingStep(d: Desk, s: Step, came: set<nat>)
    requires Sparing(d, came) && Enabled(d, s) && (s.Subscribe? ==> s.sub !in came)
    ensures Sparing(Apply(d, s), came + if s.Subscribe? then {s.sub} else {})
  {
    match s {
      case Exit(run, end, exposed) => SparingExit(d, run, end, exposed, came);
      case _ =>
    }
  }

  lemma {:induction false} SparingAffected(d: Desk, current: bool, end: Option<bool>, exposed: set<nat>, came: set<nat>)
    requires Sparing(d, came)
    ensures Sparing(Affected(d, current, end, exposed), came)
  {
  }

  lemma {:induction false} SparingBehind(d: Desk, current: bool, came: set<nat>)
    requires Sparing(d, came)
    ensures Sparing(LeftBehind(d, current), came)
  {
  }

  lemma {:induction false} SparingExit(d: Desk, run: nat, end: Option<bool>, exposed: set<nat>, came: set<nat>)
    requires Sparing(d, came) && d.readers > 0
    ensures Sparing(ExitDesk(d, run, end, exposed), came)
  {
    var d0 := d.(readers := d.readers - 1);
    assert Sparing(d0, came);
    SparingAffected(d0, d.run == run, end, exposed, came);
    SparingBehind(Affected(d0, d.run == run, end, exposed), d.run == run, came);
    hide Affected, LeftBehind, Sparing;
  }

  lemma {:induction false} AttachedSnoc(steps: seq<Step>, s: Step)
    ensures Attached(steps + [s]) == Attached(steps) + if s.Subscribe? then {s.sub} else {}
  {
    var all := steps + [s];
    assert forall i | 0 <= i < |steps| :: all[i] == steps[i];
    assert all[|steps|] == s;
    forall x
      ensures x in Attached(all) <==> x in Attached(steps) + if s.Subscribe? then {s.sub} else {}
    {
      if x in Attached(steps) {
        var i :| 0 <= i < |steps| && steps[i].Subscribe? && steps[i].sub == x;
        assert all[i].Subscribe? && all[i].sub == x;
      }
    }
  }

  lemma {:induction false} EveryHistorySparing(steps: seq<Step>, desks: seq<Desk>, n: nat)
    requires Leads(steps, desks) && n <= |steps| && OnceEach(steps)
    ensures Sparing(desks[n], Attached(steps[..n]))
  {
    hide Sparing, Attached, Apply;
    if n == 0 {
      NewSparing(Attached(steps[..0]));
    } else {
      EveryHistorySparing(steps, desks, n - 1);
      assert Moves(desks[n - 1], steps[n - 1], desks[n]);
      assert steps[..n] == steps[..n - 1] + [steps[n - 1]];
      AttachedSnoc(steps[..n - 1], steps[n - 1]);
      ComesOnce(steps, n - 1);
      SparingStep(desks[n - 1], steps[n - 1], Attached(steps[..n - 1]));
    }
  }

  lemma {:induction false} NewSparing(came: set<nat>)
    ensures Sparing(NEW, came)
  {
  }

  lemma {:induction false} ComesOnce(steps: seq<Step>, n: nat)
    requires OnceEach(steps) && n < |steps|
    ensures steps[n].Subscribe? ==> steps[n].sub !in Attached(steps[..n])
  {
  }

  /** Over every history in which each subscriber attaches once: until the session closes, a subscriber of
      the session alone leaves only by itself or with the session's events; no run's end takes it along. */
  lemma {:induction false} SessionOnlySpared(steps: seq<Step>, desks: seq<Desk>, n: nat, x: nat)
    requires Leads(steps, desks) && n < |steps| && OnceEach(steps)
    requires x in desks[n].subs && x in desks[n].sessionOnly && !desks[n].closed
    ensures x in desks[n + 1].subs || (steps[n].Detach? && x in steps[n].gone) || steps[n].FailEvents?
  {
    hide Attached, Apply;
    EveryHistorySparing(steps, desks, n);
    assert Moves(desks[n], steps[n], desks[n + 1]);
    WhoLeaves(desks[n], steps[n], x);
  }
}
