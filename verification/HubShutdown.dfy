/** How a hub session lets go of its subscribers: counting the readers of its streams and the
    reservations of submissions in flight, and deferring the end of a run to a cohort of
    subscribers while either is outstanding. Every step is one critical section; only streams
    adopted with a run id take part. */
module HubShutdown {
  import opened Basics

  /** The session's shutdown state. The pending end says whether it carries an error; finishing
      counts the closings that have unlocked and not yet taken the subscribers off. */
  datatype Desk = Desk(
    closed: bool, closing: bool, readers: nat, reservations: nat, finishDue: bool,
    pendingEnd: Option<bool>, deferred: Option<set<nat>>, subs: set<nat>, sessionOnly: set<nat>,
    run: nat, serials: map<nat, nat>, nextSerial: nat, failed: bool, finishing: nat)

  const NEW := Desk(false, false, 0, 0, false, None, None, {}, {}, 0, map[], 0, false, 0)

  datatype Step =
    | Subscribe(sub: nat, onlySession: bool)
    | Detach(gone: set<nat>)
    | FailEvents
    | BeginClose
    | UndoClose
    | Reserve
    | Release
    | Start(run: nat)
    | Adopt(run: nat, queued: bool)
    | Promote(run: nat, terminal: bool)
    | Exit(run: nat, end: Option<bool>, exposed: set<nat>)
    | MarkClosed
    | FinishSubs

  /** A reservation is given back once, only a reader exits or promotes, and only a closing that
      has unlocked finishes. */
  predicate Enabled(d: Desk, s: Step) {
    match s
    case Release => d.reservations > 0
    case Adopt(_, _) => d.reservations > 0
    case Promote(_, _) => d.readers > 0
    case Exit(_, _, _) => d.readers > 0
    case FinishSubs => d.finishing > 0
    case _ => true
  }

  function SerialOf(d: Desk, run: nat): nat {
    if run in d.serials then d.serials[run] else 0
  }

  /** The subscribers an ending run takes along: all of them once the session is closed, and
      before that those that follow runs. */
  function Followers(closed: bool, subs: set<nat>, sessionOnly: set<nat>): set<nat> {
    if closed then subs else subs - sessionOnly
  }

  function Following(d: Desk): set<nat> {
    Followers(d.closed, d.subs, d.sessionOnly)
  }

  function Without(subs: set<nat>, cohort: Option<set<nat>>): set<nat> {
    if cohort.Some? then subs - cohort.value else subs
  }

  /** A newer run takes over: a pending failure is delivered to its cohort, a clean end forgotten. */
  function Superseded(d: Desk): Desk {
    d.(subs := if d.pendingEnd == Some(true) then Without(d.subs, d.deferred) else d.subs, pendingEnd := None, finishDue := false, deferred := None)
  }

  function SubscribeDesk(d: Desk, sub: nat, onlySession: bool): Desk {
    if d.closed || d.failed then d
    else d.(subs := d.subs + {sub}, sessionOnly := if onlySession then d.sessionOnly + {sub} else d.sessionOnly - {sub})
  }

  function FailDesk(d: Desk): Desk {
    if d.closed then d
    else if d.closing then d.(failed := true)
    else d.(failed := true, subs := {})
  }

  function ReleaseDesk(d: Desk): Desk
    requires d.reservations > 0
  {
    var d1 := d.(reservations := d.reservations - 1);
    if d1.finishDue && d1.readers == 0 && d1.reservations == 0 then
      d1.(subs := Without(d1.subs, d1.deferred), pendingEnd := None, finishDue := false, deferred := None)
    else d1
  }

  function Adopted(d: Desk, run: nat): Desk {
    d.(readers := d.readers + 1, nextSerial := d.nextSerial + 1, serials := d.serials[run := d.nextSerial + 1])
  }

  function StartDesk(d: Desk, run: nat): Desk {
    Superseded(Adopted(d, run).(run := run))
  }

  function AdoptDesk(d: Desk, run: nat, queued: bool): Desk
    requires d.reservations > 0
  {
    var d1 := Adopted(d.(reservations := d.reservations - 1), run);
    if queued then d1 else Superseded(d1.(run := run))
  }

  function PromoteDesk(d: Desk, run: nat, terminal: bool): Desk {
    if terminal || d.run == run || SerialOf(d, run) <= SerialOf(d, d.run) then d else Superseded(d.(run := run))
  }

  function ExitDesk(d: Desk, run: nat, end: Option<bool>, exposed: set<nat>): Desk
    requires d.readers > 0
  {
    var d0 := d.(readers := d.readers - 1);
    if end.None? && !d.closed && d.pendingEnd.None? && d.deferred.None? && !d.finishDue then d0
    else
      LeftBehind(Affected(d0, d.run == run, end, exposed), d.run == run)
  }

  /** The current run's end is deferred to those that follow it; another's failure stops those it
      exposed. */
  function Affected(d: Desk, current: bool, end: Option<bool>, exposed: set<nat>): Desk {
    if current then d.(pendingEnd := end, deferred := Some(Following(d)))
    else if end == Some(true) then d.(subs := d.subs - (exposed - d.sessionOnly))
    else d
  }

  /** What a reader that has left leaves behind, the current run's or another's. */
  function LeftBehind(d: Desk, current: bool): Desk {
    if d.readers > 0 then d
    else if d.reservations > 0 then
      d.(finishDue := true, deferred := if d.deferred.Some? then d.deferred else Some(Following(d)))
    else if !current && d.deferred.Some? then d.(subs := d.subs - d.deferred.value, pendingEnd := None, deferred := None)
    else d.(subs := d.subs - Following(d), pendingEnd := None, deferred := None)
  }

  function CloseDesk(d: Desk): Desk {
    var d0 := d.(closed := true);
    if d.readers == 0 && d.reservations == 0 then d0.(finishing := d0.finishing + 1)
    else
      Deferring(d0)
  }

  function Deferring(d: Desk): Desk {
    var erred := d.pendingEnd == Some(true);
    var d1 := d.(subs := if erred then Without(d.subs, d.deferred) else d.subs, pendingEnd := if erred then None else d.pendingEnd);
    d1.(deferred := Some(Following(d1)), finishDue := if d.readers > 0 then d1.finishDue else true)
  }

  function FinishDesk(d: Desk): Desk
    requires d.finishing > 0
  {
    d.(subs := {}, finishing := d.finishing - 1)
  }

  function Apply(d: Desk, s: Step): Desk
    requires Enabled(d, s)
  {
    match s
    case Subscribe(sub, onlySession) => SubscribeDesk(d, sub, onlySession)
    case Detach(gone) => d.(subs := d.subs - gone)
    case FailEvents => FailDesk(d)
    case BeginClose => d.(closing := true)
    case UndoClose => d.(closing := false)
    case Reserve => d.(reservations := d.reservations + 1)
    case Release => ReleaseDesk(d)
    case Start(run) => StartDesk(d, run)
    case Adopt(run, queued) => AdoptDesk(d, run, queued)
    case Promote(run, terminal) => PromoteDesk(d, run, terminal)
    case Exit(run, end, exposed) => ExitDesk(d, run, end, exposed)
    case MarkClosed => CloseDesk(d)
    case FinishSubs => FinishDesk(d)
  }

  predicate Moves(d: Desk, s: Step, d': Desk) {
    Enabled(d, s) && d' == Apply(d, s)
  }

  /** The states a sequence of steps passes through, each enabled where it is taken. */
  ghost predicate Leads(steps: seq<Step>, desks: seq<Desk>) {
    && |desks| == |steps| + 1 && desks[0] == NEW
    && forall i | 0 <= i < |steps| :: Moves(desks[i], steps[i], desks[i + 1])
  }

  // ------------------------------------------------------------ no subscriber is left behind

  /** Someone is bound to let go of the subscribers of a closed session: a reader yet to exit,
      a closing yet to finish, or the last reservation, due to take a cohort that covers them. */
  ghost predicate Accounted(d: Desk) {
    && (d.deferred.Some? ==> d.readers > 0 || (d.reservations > 0 && d.finishDue))
    && (d.closed ==>
      && (d.deferred.Some? ==> d.subs <= d.deferred.value)
      && (|| d.subs == {} || d.readers > 0 || d.finishing > 0
          || (d.reservations > 0 && d.finishDue && d.deferred.Some?)))
  }

  lemma {:induction false} AccountedBehind(d: Desk, current: bool)
    requires d.deferred.Some? && d.closed ==> d.subs <= d.deferred.value
    ensures Accounted(LeftBehind(d, current))
  {
  }

  /** Who is left attached to a closed session is still in the cohort of an end deferred to a reader. */
  lemma {:induction false} AffectedCovered(d: Desk, current: bool, end: Option<bool>, exposed: set<nat>)
    requires d.deferred.Some? && d.closed ==> d.subs <= d.deferred.value
    ensures var d' := Affected(d, current, end, exposed); d'.deferred.Some? && d'.closed ==> d'.subs <= d'.deferred.value
  {
  }

  lemma {:induction false} AccountedExit(d: Desk, run: nat, end: Option<bool>, exposed: set<nat>)
    requires Accounted(d) && d.readers > 0
    ensures Accounted(ExitDesk(d, run, end, exposed))
  {
    hide Affected, LeftBehind, Following;
    var d0 := d.(readers := d.readers - 1);
    AffectedCovered(d0, d.run == run, end, exposed);
    AccountedBehind(Affected(d0, d.run == run, end, exposed), d.run == run);
  }

  lemma {:induction false} AccountedStep(d: Desk, s: Step)
    requires Accounted(d) && Enabled(d, s)
    ensures Accounted(Apply(d, s))
  {
    match s
    case Subscribe(_, _) =>
    case Detach(_) =>
    case FailEvents =>
    case BeginClose =>
    case UndoClose =>
    case Reserve =>
    case Release =>
    case Start(_) =>
    case Adopt(_, _) =>
    case Promote(_, _) =>
    case Exit(run, end, exposed) => AccountedExit(d, run, end, exposed);
    case MarkClosed =>
    case FinishSubs =>
  }

  lemma {:induction false} EveryHistoryAccounted(steps: seq<Step>, desks: seq<Desk>, n: nat)
    requires Leads(steps, desks) && n <= |steps|
    ensures Accounted(desks[n])
  {
    if n > 0 {
      EveryHistoryAccounted(steps, desks, n - 1);
      assert Moves(desks[n - 1], steps[n - 1], desks[n]);
      AccountedStep(desks[n - 1], steps[n - 1]);
    }
  }

  /** In every reachable state: a closed session with no reader, no reservation and no closing
      under way has no subscriber attached. */
  lemma {:induction false} NoneLeftAttached(steps: seq<Step>, desks: seq<Desk>, n: nat)
    requires Leads(steps, desks) && n <= |steps|
    ensures var d := desks[n];
      d.closed && d.readers == 0 && d.reservations == 0 && d.finishing == 0 ==> d.subs == {}
  {
    EveryHistoryAccounted(steps, desks, n);
  }

  /** In every reachable state: while a subscriber is attached to a closed session that no reader
      reads and no closing is about to clear, the end is due to the reservations outstanding, and its
      cohort covers every subscriber; so the last reservation given back takes them all. */
  lemma {:induction false} DueWhileAttached(steps: seq<Step>, desks: seq<Desk>, n: nat)
    requires Leads(steps, desks) && n <= |steps| && desks[n].closed && desks[n].readers == 0 && desks[n].finishing == 0
    ensures var d := desks[n];
      d.subs != {} ==> d.reservations > 0 && d.finishDue && d.deferred.Some? && d.subs <= d.deferred.value
    ensures desks[n].reservations == 1 ==> Apply(desks[n], Release).subs == {}
  {
    EveryHistoryAccounted(steps, desks, n);
  }

  /** A closed session takes no new subscriber. */
  lemma {:induction false} ClosedOnlySheds(d: Desk, s: Step)
    requires d.closed && Enabled(d, s)
    ensures Apply(d, s).closed && Apply(d, s).subs <= d.subs
  {
    match s
    case Exit(run, end, exposed) =>
    case _ =>
  }

  /** A submission that reserves after the session closed with nothing outstanding leaves nothing
      due, but then there is no subscriber to cover either. */
  lemma {:induction false} ReservedAfterClose()
    ensures var d := Apply(Apply(Apply(NEW, MarkClosed), FinishSubs), Reserve);
      d.closed && d.readers == 0 && d.reservations > 0 && !d.finishDue && d.subs == {}
  {
  }

  // ------------------------------------------------------------ the session object

  class ClosingSession {
    var closed: bool
    var closing: bool
    var readers: nat
    var reservations: nat
    var finishDue: bool
    var pendingEnd: Option<bool>
    var deferred: Option<set<nat>>
    var subs: set<nat>
    var sessionOnly: set<nat>
    var run: nat
    var serials: map<nat, nat>
    var nextSerial: nat
    var failed: bool
    ghost var finishing: nat

    ghost function View(): Desk
      reads this
    {
      Desk(closed, closing, readers, reservations, finishDue, pendingEnd, deferred, subs, sessionOnly,
           run, serials, nextSerial, failed, finishing)
    }

    constructor ()
      ensures View() == NEW && Accounted(View())
    {
      closed, closing, readers, reservations, finishDue, pendingEnd := false, false, 0, 0, false, None;
      deferred, subs, sessionOnly, run, serials, nextSerial, failed, finishing := None, {}, {}, 0, map[], 0, false, 0;
    }

    /** The subscribers an ending run takes along. */
    method SnapshotSubs() returns (cohort: set<nat>)
      ensures cohort == Following(View())
    {
      cohort := Snapshot(closed, subs, sessionOnly);
    }

    method Supersede()
      modifies this`subs, this`pendingEnd, this`finishDue, this`deferred
      ensures View() == Superseded(old(View()))
    {
      ShedFailed();
      pendingEnd, finishDue, deferred := None, false, None;
    }

    method Subscribe(sub: nat, onlySession: bool) returns (attached: bool)
      requires Accounted(View())
      modifies this`subs, this`sessionOnly
      ensures View() == Apply(old(View()), Step.Subscribe(sub, onlySession)) && Accounted(View())
      ensures attached <==> !closed && !failed
    {
      AccountedStep(View(), Step.Subscribe(sub, onlySession));
      if closed || failed {
        return false;
      }
      subs := subs + {sub};
      if onlySession {
        sessionOnly := sessionOnly + {sub};
      } else {
        sessionOnly := sessionOnly - {sub};
      }
      return true;
    }

    /** Subscribers leave, or fall off because they cannot keep up. */
    method Unsubscribe(gone: set<nat>)
      requires Accounted(View())
      modifies this`subs
      ensures View() == Apply(old(View()), Detach(gone)) && Accounted(View())
    {
      AccountedStep(View(), Detach(gone));
      subs := subs - gone;
    }

    method FailSessionEvents()
      requires Accounted(View())
      modifies this`failed, this`subs
      ensures View() == Apply(old(View()), FailEvents) && Accounted(View())
    {
      AccountedStep(View(), FailEvents);
      if closed {
        return;
      }
      failed := true;
      if closing {
        return;
      }
      subs := {};
    }

    method StartClosing()
      requires Accounted(View())
      modifies this`closing
      ensures View() == Apply(old(View()), BeginClose) && Accounted(View())
    {
      AccountedStep(View(), BeginClose);
      closing := true;
    }

    /** A closing that failed is undone, and a failure of the event source it held back is replayed. */
    method FailedClose()
      requires Accounted(View())
      modifies this`closing, this`failed, this`subs
      ensures Accounted(View())
      ensures View() == if old(failed) then Apply(Apply(old(View()), UndoClose), FailEvents) else Apply(old(View()), UndoClose)
    {
      AccountedStep(View(), UndoClose);
      closing := false;
      if failed {
        FailSessionEvents();
      }
    }

    method ReserveOne()
      requires Accounted(View())
      modifies this`reservations
      ensures View() == Apply(old(View()), Reserve) && Accounted(View())
    {
      AccountedStep(View(), Reserve);
      reservations := reservations + 1;
    }

    method ReleaseReservation()
      requires Accounted(View()) && reservations > 0
      modifies this
      ensures View() == Apply(old(View()), Release) && Accounted(View())
    {
      hide Accounted;
      AccountedStep(View(), Release);
      reservations := reservations - 1;
      if finishDue && readers == 0 && reservations == 0 {
        if deferred.Some? {
          subs := subs - deferred.value;
        }
        pendingEnd, finishDue, deferred := None, false, None;
      }
    }

    method AdoptRun(id: nat, queued: bool)
      requires Accounted(View()) && reservations > 0
      modifies this
      ensures View() == Apply(old(View()), Adopt(id, queued)) && Accounted(View())
    {
      hide Accounted;
      AccountedStep(View(), Adopt(id, queued));
      reservations := reservations - 1;
      Number(id);
      if !queued {
        run := id;
        Supersede();
      }
    }

    method StartRun(id: nat)
      requires Accounted(View())
      modifies this
      ensures View() == Apply(old(View()), Start(id)) && Accounted(View())
    {
      hide Accounted;
      AccountedStep(View(), Start(id));
      Number(id);
      run := id;
      Supersede();
    }

    method Number(id: nat)
      modifies this`readers, this`nextSerial, this`serials
      ensures View() == Adopted(old(View()), id)
    {
      readers := readers + 1;
      nextSerial := nextSerial + 1;
      serials := serials[id := nextSerial];
    }

    /** A reader's envelope makes its run current when the run is newer. */
    method PromoteCurrent(id: nat, terminal: bool)
      requires Accounted(View()) && readers > 0
      modifies this
      ensures View() == Apply(old(View()), Promote(id, terminal)) && Accounted(View())
    {
      hide Accounted;
      AccountedStep(View(), Promote(id, terminal));
      if terminal {
        return;
      }
      var serial := if id in serials then serials[id] else 0;
      var current := if run in serials then serials[run] else 0;
      if run == id || serial <= current {
        return;
      }
      run := id;
      Supersede();
    }

    /** A reader leaves. The last one out takes the subscribers along, unless a submission in
        flight may yet bring another stream. */
    method ExitReader(id: nat, end: Option<bool>, exposed: set<nat>)
      requires Accounted(View()) && readers > 0
      modifies this
      ensures View() == Apply(old(View()), Exit(id, end, exposed)) && Accounted(View())
    {
      hide Accounted, Affected, LeftBehind;
      AccountedStep(View(), Exit(id, end, exposed));
      readers := readers - 1;
      var current := run == id;
      if end.None? && !closed && pendingEnd.None? && deferred.None? && !finishDue {
        return;
      }
      Affect(current, end, exposed);
      LetGo(current);
    }

    method Affect(current: bool, end: Option<bool>, exposed: set<nat>)
      modifies this`pendingEnd, this`deferred, this`subs
      ensures View() == Affected(old(View()), current, end, exposed)
    {
      hide Followers;
      if current {
        var cohort := SnapshotSubs();
        pendingEnd, deferred := end, Some(cohort);
      } else if end.Some? && end.value {
        subs := subs - (exposed - sessionOnly);
      }
    }

    method LetGo(current: bool)
      modifies this`finishDue, this`deferred, this`subs, this`pendingEnd
      ensures View() == LeftBehind(old(View()), current)
    {
      hide Followers;
      if readers > 0 {
        return;
      }
      if reservations > 0 {
        finishDue := true;
        if deferred.None? {
          var cohort := SnapshotSubs();
          deferred := Some(cohort);
        }
        return;
      }
      if !current && deferred.Some? {
        subs := subs - deferred.value;
      } else {
        var cohort := SnapshotSubs();
        subs := subs - cohort;
      }
      pendingEnd, deferred := None, None;
    }

    /** The session closes. With nothing outstanding the lock is let go before the subscribers
        are taken off, so the rest of the closing is FinishAll. */
    method Close() returns (finish: bool)
      requires Accounted(View())
      modifies this
      ensures View() == Apply(old(View()), MarkClosed) && Accounted(View())
      ensures finish <==> old(readers) == 0 && old(reservations) == 0
    {
      hide Accounted, Deferring;
      AccountedStep(View(), MarkClosed);
      closed := true;
      if readers == 0 && reservations == 0 {
        finishing := finishing + 1;
        return true;
      }
      DeferAll();
      return false;
    }

    /** The subscribers are left to the readers, or to the last reservation. */
    method DeferAll()
      modifies this`subs, this`pendingEnd, this`finishDue, this`deferred
      ensures View() == Deferring(old(View()))
    {
      hide Followers;
      ShedFailed();
      if readers == 0 {
        finishDue := true;
      }
      var cohort := SnapshotSubs();
      deferred := Some(cohort);
    }

    /** A pending failure is delivered to its cohort. */
    method ShedFailed()
      modifies this`subs, this`pendingEnd
      ensures subs == if old(pendingEnd) == Some(true) then Without(old(subs), deferred) else old(subs)
      ensures pendingEnd == if old(pendingEnd) == Some(true) then None else old(pendingEnd)
    {
      if pendingEnd.Some? && pendingEnd.value {
        if deferred.Some? {
          subs := subs - deferred.value;
        }
        pendingEnd := None;
      }
    }

    method FinishAll()
      requires Accounted(View()) && finishing > 0
      modifies this
      ensures View() == Apply(old(View()), FinishSubs) && Accounted(View())
    {
      AccountedStep(View(), FinishSubs);
      subs := {};
      finishing := finishing - 1;
    }
  }

  method Snapshot(closed: bool, subs: set<nat>, sessionOnly: set<nat>) returns (cohort: set<nat>)
    ensures cohort == Followers(closed, subs, sessionOnly)
  {
    cohort := {};
    var todo := subs;
    while todo != {}
      invariant todo <= subs
      invariant forall x :: x in cohort <==> x in subs && x !in todo && (closed || x !in sessionOnly)
      decreases |todo|
    {
      var sub :| sub in todo;
      todo := todo - {sub};
      if sub in sessionOnly && !closed {
        continue;
      }
      cohort := cohort + {sub};
    }
  }
}
