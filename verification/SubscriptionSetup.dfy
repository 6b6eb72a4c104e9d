/** Setting up a resumed subscription while the session goes on: the queue is attached, then the
    later runs are looked up, then their replays are opened, and between any two of these the run
    makes envelopes, the session delivers them, and other runs are adopted. Seen from one run. */
module SubscriptionSetup {
  import opened Basics
  import G = HubGate
  import S = Subscription

  type Envelope = G.Envelope

  /** How far the run has come and been delivered, and how far the setup. Shown is up to where the
      run went into the live queue, which takes nothing more once the subscriber is stopped. */
  datatype Setup = Setup(
    serials: map<nat, nat>, issued: nat, made: nat, delivered: nat,
    attached: Option<nat>, shown: nat, live: bool, queue: seq<Envelope>,
    listed: Option<map<nat, nat>>, cut: Option<nat>)

  datatype Step =
    | Adopt(other: nat)
    | Make
    | Deliver
    | DeliverOther(envelope: Envelope)
    | Attach
    | LookUp
    | Open
    | Stop

  /** A run is adopted before its envelopes are delivered, those in the order they were made, and
      the run looked at is adopted once; the setup takes its own steps in order. */
  predicate Enabled(t: Setup, s: Step, run: nat, trace: seq<Envelope>) {
    match s
    case Adopt(other) => other != 0 && (other != run || run !in t.serials)
    case Make => t.made < |trace|
    case Deliver => run in t.serials && t.delivered < t.made <= |trace|
    case DeliverOther(e) => e.run != run
    case Attach => t.attached.None?
    case LookUp => t.attached.Some? && t.listed.None?
    case Open => t.listed.Some? && t.cut.None?
    case Stop => true
  }

  function Queued(t: Setup, e: Envelope): seq<Envelope> {
    if t.attached.Some? && t.live then t.queue + [e] else t.queue
  }

  function Apply(t: Setup, s: Step, run: nat, trace: seq<Envelope>): Setup
    requires Enabled(t, s, run, trace)
  {
    match s
    case Adopt(other) => t.(serials := t.serials[other := t.issued + 1], issued := t.issued + 1)
    case Make => t.(made := t.made + 1)
    case Deliver =>
      t.(delivered := t.delivered + 1, queue := Queued(t, trace[t.delivered]),
         shown := if t.attached.Some? && t.live then t.delivered + 1 else t.shown)
    case DeliverOther(e) => t.(queue := Queued(t, e))
    case Attach => t.(attached := Some(t.delivered), shown := t.delivered)
    case LookUp => t.(listed := Some(t.serials))
    case Open => t.(cut := Some(t.made))
    case Stop => t.(live := false)
  }

  predicate Moves(t: Setup, s: Step, t': Setup, run: nat, trace: seq<Envelope>) {
    Enabled(t, s, run, trace) && t' == Apply(t, s, run, trace)
  }

  /** The session as the setup finds it: the run made and delivered up to anywhere. */
  predicate Found(t: Setup, run: nat, trace: seq<Envelope>) {
    && S.Issued(t.serials, t.issued) && t.delivered <= t.made <= |trace|
    && (t.delivered > 0 ==> run in t.serials)
    && t.attached.None? && t.listed.None? && t.cut.None? && t.queue == [] && t.live
  }

  ghost predicate Leads(run: nat, trace: seq<Envelope>, steps: seq<Step>, setups: seq<Setup>) {
    && |setups| == |steps| + 1 && Found(setups[0], run, trace)
    && forall i | 0 <= i < |steps| :: Moves(setups[i], steps[i], setups[i + 1], run, trace)
  }

  // ------------------------------------------------------------ what every history keeps

  /** The live queue carries the run from where it was attached on. */
  ghost predicate Carried(t: Setup, run: nat, trace: seq<Envelope>) {
    && t.delivered <= t.made <= |trace| && (t.delivered > 0 ==> run in t.serials)
    && (t.attached.None? ==> t.queue == [])
    && (t.attached.Some? ==>
      && t.attached.value <= t.shown <= t.delivered && (t.live ==> t.shown == t.delivered)
      && G.Scope(t.queue, run) == trace[t.attached.value..t.shown])
  }

  /** What had been delivered when the queue was attached was known when the later runs were looked
      up, and made when their replays were opened. */
  ghost predicate Ordered(t: Setup, run: nat) {
    && S.Issued(t.serials, t.issued)
    && (t.attached.Some? ==> t.attached.value <= t.delivered && (t.attached.value > 0 ==> run in t.serials))
    && (t.listed.Some? ==> t.attached.Some? && Looked(t.listed.value, t.serials, run) && (t.attached.value > 0 ==> run in t.listed.value))
    && (t.cut.Some? ==> t.listed.Some? && t.attached.value <= t.cut.value <= t.made)
  }

  /** Serials looked up earlier: the run kept its serial, and no run was given a lower one. */
  predicate Looked(earlier: map<nat, nat>, serials: map<nat, nat>, run: nat) {
    && (run in earlier ==> run in serials && serials[run] == earlier[run])
    && forall r | r in earlier :: r in serials && serials[r] >= earlier[r] > 0
  }

  lemma {:induction false} CarriedOne(queue: seq<Envelope>, run: nat, trace: seq<Envelope>, j: nat, n: nat)
    requires j <= n < |trace| && G.Scope(queue, run) == trace[j..n] && trace[n].run == run
    ensures G.Scope(queue + [trace[n]], run) == trace[j..n + 1]
  {
    G.ScopeSnoc(queue, trace[n], run);
  }

  lemma {:induction false} CarriedOther(queue: seq<Envelope>, run: nat, e: Envelope)
    requires e.run != run
    ensures G.Scope(queue + [e], run) == G.Scope(queue, run)
  {
    G.ScopeSnoc(queue, e, run);
  }

  lemma {:induction false} CarriedStep(t: Setup, s: Step, run: nat, trace: seq<Envelope>)
    requires S.Trace(run, trace) && Carried(t, run, trace) && Enabled(t, s, run, trace)
    ensures Carried(Apply(t, s, run, trace), run, trace)
  {
    hide G.Scope;
    match s
    case Adopt(_) =>
    case Make =>
    case Deliver =>
      if t.attached.Some? && t.live {
        CarriedOne(t.queue, run, trace, t.attached.value, t.delivered);
      }
    case DeliverOther(e) => CarriedOther(t.queue, run, e);
    case Attach =>
      NothingCarried(run);
      assert trace[t.delivered..t.delivered] == [];
    case LookUp =>
    case Open =>
    case Stop =>
  }

  lemma {:induction false} NothingCarried(run: nat)
    ensures G.Scope([], run) == []
  {
  }

  lemma {:induction false} AdoptedIssued(serials: map<nat, nat>, issued: nat, run: nat)
    requires S.Issued(serials, issued) && run != 0
    ensures S.Issued(serials[run := issued + 1], issued + 1)
  {
  }

  lemma {:induction false} AdoptedLooked(earlier: map<nat, nat>, serials: map<nat, nat>, issued: nat, run: nat, other: nat)
    requires S.Issued(serials, issued) && Looked(earlier, serials, run) && (other == run ==> run !in serials)
    ensures Looked(earlier, serials[other := issued + 1], run)
  {
  }

  lemma {:induction false} OrderedStep(t: Setup, s: Step, run: nat, trace: seq<Envelope>)
    requires Ordered(t, run) && Carried(t, run, trace) && Enabled(t, s, run, trace)
    ensures Ordered(Apply(t, s, run, trace), run)
  {
    hide S.Issued, Looked, G.Scope;
    match s
    case Adopt(other) =>
      AdoptedIssued(t.serials, t.issued, other);
      if t.listed.Some? {
        AdoptedLooked(t.listed.value, t.serials, t.issued, run, other);
      }
    case Make =>
    case Deliver =>
    case DeliverOther(_) =>
    case Attach =>
    case LookUp => LookedNow(t.serials, t.issued, run);
    case Open =>
    case Stop =>
  }

  lemma {:induction false} LookedNow(serials: map<nat, nat>, issued: nat, run: nat)
    requires S.Issued(serials, issued)
    ensures Looked(serials, serials, run)
  {
  }

  /** Over every interleaving: the queue carries the run from where it was attached, which is known
      to the look-up and lies before the end of what the replays opened can reach. */
  lemma {:induction false} EveryHistoryOrdered(run: nat, trace: seq<Envelope>, steps: seq<Step>, setups: seq<Setup>, n: nat)
    requires S.Trace(run, trace) && Leads(run, trace, steps, setups) && n <= |steps|
    ensures Carried(setups[n], run, trace) && Ordered(setups[n], run)
  {
    hide G.Scope, S.Trace, S.Issued;
    if n > 0 {
      EveryHistoryOrdered(run, trace, steps, setups, n - 1);
      assert Moves(setups[n - 1], steps[n - 1], setups[n], run, trace);
      hide Carried, Ordered;
      CarriedStep(setups[n - 1], steps[n - 1], run, trace);
      OrderedStep(setups[n - 1], steps[n - 1], run, trace);
    }
  }

  /** A run looked up beside the one resumed is replayed if it was adopted later. */
  lemma {:induction false} ListedLater(t: Setup, start: nat, later: seq<nat>, run: nat)
    requires Ordered(t, run) && t.listed.Some? && start in t.listed.value && S.IsLater(t.listed.value, start, later)
    requires run in t.listed.value && run != start
    requires S.SerialIn(t.serials, run) >= S.SerialIn(t.serials, start)
    ensures run in later
  {
  }

  lemma {:induction false} AttachedBefore(t: Setup, run: nat, start: nat, later: seq<nat>, m: nat)
    requires Ordered(t, run) && t.cut.Some? && start in t.listed.value && S.IsLater(t.listed.value, start, later)
    requires S.SerialIn(t.serials, run) >= S.SerialIn(t.serials, start)
    requires run in [start] + later ==> t.cut.value <= m
    ensures t.attached.value <= m
  {
    if run != start && run in t.listed.value {
      ListedLater(t, start, later, run);
    }
  }

  /** However the setup is interleaved with the session: a subscription resumed in a run the session
      knows hands out, of that run past the cursor and of every run adopted later from its start,
      each envelope exactly once and in order, up to the end of its replay or of what its queue
      was shown, whichever is further. The replay of a run carries at least what was made when it
      was opened. */
  lemma {:induction false} ExactlyOnceSubscribed(
    run: nat, trace: seq<Envelope>, steps: seq<Step>, setups: seq<Setup>,
    start: nat, after: nat, later: seq<nat>, series: seq<seq<Envelope>>, m: nat)
    requires S.Trace(run, trace) && Leads(run, trace, steps, setups)
    requires var t := setups[|steps|];
      && t.cut.Some? && t.listed.Some? && start in t.listed.value && S.IsLater(t.listed.value, start, later)
      && S.SerialIn(t.serials, run) >= S.SerialIn(t.serials, start)
      && (run in [start] + later ==> t.cut.value <= m)
    requires S.ReplaysOf([start] + later, series, run, trace, if run == start then after else 0, m)
    ensures var t, from := setups[|steps|], if run == start then after else 0;
      var s := S.ReplaySeries(S.Resuming(t.serials, t.issued, start, after, later, false), series);
      t.shown <= |trace| && G.Scope(S.LiveAll(s, t.queue).handed, run) == trace[from..if m < t.shown then t.shown else m]
  {
    hide G.Scope, S.Trace, S.Issued, S.IsLater, S.ReplaysOf, S.ReplaySeries, S.LiveAll;
    var t := setups[|steps|];
    EveryHistoryOrdered(run, trace, steps, setups, |steps|);
    AttachedBefore(t, run, start, later, m);
    S.ExactlyOnce(t.serials, t.issued, start, after, later, series, run, trace, m, t.queue, t.attached.value, t.shown);
  }

  /** In a session that does not know the run resumed, no later run is replayed, and one delivered
      before the queue was attached is missed. */
  lemma {:induction false} UnknownStartMisses(run: nat, trace: seq<Envelope>, start: nat, after: nat)
    requires S.Trace(run, trace) && |trace| == 1 && start != run
    ensures exists steps: seq<Step>, setups: seq<Setup> | Leads(run, trace, steps, setups) ::
      var t := setups[|steps|];
      && t.cut.Some? && t.listed.Some? && S.IsLater(t.listed.value, start, []) && t.delivered == 1
      && var s := S.ReplaySeries(S.Resuming(t.serials, t.issued, start, after, [], false), [[]]);
         G.Scope(S.LiveAll(s, t.queue).handed, run) == []
  {
    var t0 := Setup(map[run := 1], 1, 1, 1, None, 0, true, [], None, None);
    var t1 := Apply(t0, Attach, run, trace);
    var t2 := Apply(t1, LookUp, run, trace);
    var t3 := Apply(t2, Open, run, trace);
    var steps, setups := [Attach, LookUp, Open], [t0, t1, t2, t3];
    assert Leads(run, trace, steps, setups);
    var s0 := S.Resuming(t3.serials, t3.issued, start, after, [], false);
    var none: seq<seq<Envelope>> := [[]];
    assert none[..0] == [];
    assert S.ReplaySeries(s0, none) == S.ReplayEnded(s0);
    assert setups[|steps|] == t3;
  }
}
