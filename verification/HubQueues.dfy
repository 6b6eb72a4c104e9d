/** The bounded queues of a hub session's subscribers: what each is offered, how it counts what
    is still on its way, and which run is named when it cannot keep up. */
module HubQueues {
  import opened Basics
  import G = HubGate

  type Envelope = G.Envelope

  /** How a subscriber was stopped. */
  datatype Verdict = Overflow(run: nat) | Failure

  /** A subscriber. The envelope in hand has left the channel and is not accounted for yet;
      offered is everything put on the channel, consumed what was taken off it. */
  datatype Sub = Sub(
    sessionOnly: bool, capacity: nat, queue: seq<Envelope>, hand: seq<Envelope>,
    pending: map<nat, nat>, serials: map<nat, nat>, ack: Option<nat>, ackSerial: nat,
    attached: nat, attachedSerial: nat, live: bool, verdict: Option<Verdict>,
    offered: seq<Envelope>, consumed: seq<Envelope>)

  function Joining(sessionOnly: bool, capacity: nat, run: nat, serial: nat): Sub {
    Sub(sessionOnly, capacity, [], [], map[], map[], None, 0, run, serial, true, None, [], [])
  }

  function PendingOf(s: Sub, run: nat): nat {
    if run in s.pending then s.pending[run] else 0
  }

  function SerialIn(s: Sub, run: nat): nat {
    if run in s.serials then s.serials[run] else 0
  }

  function CountOf(es: seq<Envelope>, run: nat): nat {
    if es == [] then 0 else CountOf(es[..|es| - 1], run) + if es[|es| - 1].run == run then 1 else 0
  }

  function Tracked(s: Sub, run: nat, serial: nat): Sub {
    s.(pending := s.pending[run := PendingOf(s, run) + 1], serials := s.serials[run := serial])
  }

  function Untracked(s: Sub, run: nat): Sub {
    if PendingOf(s, run) > 0 then s.(pending := s.pending[run := PendingOf(s, run) - 1]) else s
  }

  function Acknowledged(s: Sub, run: nat): Sub {
    var s1 := Untracked(s, run);
    if SerialIn(s, run) > s.ackSerial then s1.(ackSerial := SerialIn(s, run), ack := Some(run))
    else if s.ack.None? then s1.(ack := Some(run))
    else s1
  }

  predicate Concerns(s: Sub, e: Envelope) {
    !(s.sessionOnly && e.run != 0)
  }

  function Stopped(s: Sub, verdict: Option<Verdict>): Sub {
    s.(live := false, verdict := if s.verdict.None? then verdict else s.verdict)
  }

  /** A live subscriber is offered an envelope: it is queued, or the subscriber is stopped. */
  function Offered(s: Sub, e: Envelope, serial: nat, loss: nat): Sub {
    if !s.live || !Concerns(s, e) then s
    else
      var s1 := if e.run != 0 then Tracked(s, e.run, serial) else s;
      if |s.queue| < s.capacity then s1.(queue := s1.queue + [e], offered := s1.offered + [e])
      else Stopped(if e.run != 0 then Untracked(s1, e.run) else s1, Some(Overflow(loss)))
  }

  function Taken(s: Sub): Sub
    requires s.queue != [] && s.hand == []
  {
    s.(hand := [s.queue[0]], queue := s.queue[1..])
  }

  /** The envelope in hand accounted for: passed over as older than the first run followed, or
      acknowledged. */
  function Observed(s: Sub, older: bool): Sub
    requires |s.hand| == 1
  {
    var e := s.hand[0];
    var s1 := s.(hand := [], consumed := s.consumed + [e]);
    if e.run == 0 then s1 else if older then Untracked(s1, e.run) else Acknowledged(s1, e.run)
  }

  /** The run acknowledged last is remembered when it is the newest so far, and the first always is. */
  lemma {:induction false} NewestAcknowledged(s: Sub, run: nat)
    ensures var s' := Acknowledged(s, run);
      && s'.ackSerial >= s.ackSerial && s'.ackSerial >= SerialIn(s, run) && s'.ack.Some?
      && (s'.ackSerial == s.ackSerial || (s'.ackSerial == SerialIn(s, run) && s'.ack == Some(run)))
      && (s.ack.Some? && s'.ackSerial == s.ackSerial ==> s'.ack == s.ack)
  {
  }

  /** What an offer does to a subscriber: one that is stopped, or follows the session alone when the
      envelope is a run's, is passed by; one with room left gets the envelope at the end of its queue and
      goes on; one without is stopped, naming the loss unless it was stopped for a reason before. */
  lemma {:induction false} OfferTaken(s: Sub, e: Envelope, serial: nat, loss: nat)
    ensures var s' := Offered(s, e, serial, loss);
      if !s.live || (s.sessionOnly && e.run != 0) then s' == s
      else if |s.queue| < s.capacity then
        && s'.live && s'.verdict == s.verdict && s'.queue == s.queue + [e] && s'.offered == s.offered + [e]
        && (e.run != 0 ==> SerialIn(s', e.run) == serial && PendingOf(s', e.run) == PendingOf(s, e.run) + 1)
        && (e.run == 0 ==> s'.pending == s.pending && s'.serials == s.serials)
      else
        && !s'.live && s'.queue == s.queue && s'.offered == s.offered
        && s'.verdict == (if s.verdict.Some? then s.verdict else Some(Overflow(loss)))
        && forall run :: PendingOf(s', run) == PendingOf(s, run)
  {
  }

  /** An envelope taken off the queue and passed over changes nothing that is remembered of runs but its
      own run's count. */
  lemma {:induction false} PassedOver(s: Sub)
    requires |s.hand| == 1
    ensures var s' := Observed(s, true);
      && s'.ack == s.ack && s'.ackSerial == s.ackSerial && s'.serials == s.serials && s'.live == s.live && s'.verdict == s.verdict
      && (s.hand[0].run == 0 ==> Observed(s, false) == s' && s'.pending == s.pending)
  {
  }

  // ------------------------------------------------------------ every step

  datatype Step =
    | Offer(envelope: Envelope, serial: nat, loss: nat)
    | Take
    | Observe(older: bool)
    | Stop(verdict: Option<Verdict>)

  predicate Enabled(s: Sub, t: Step) {
    match t
    case Take => s.queue != [] && s.hand == []
    case Observe(_) => |s.hand| == 1
    case _ => true
  }

  function Apply(s: Sub, t: Step): Sub
    requires Enabled(s, t)
  {
    match t
    case Offer(e, serial, loss) => Offered(s, e, serial, loss)
    case Take => Taken(s)
    case Observe(older) => Observed(s, older)
    case Stop(verdict) => Stopped(s, verdict)
  }

  /** Each run's pending count is the number of its envelopes on their way, the queue is
      bounded, and consumed, in hand and queued are together what was offered, in order. */
  ghost predicate Sound(s: Sub) {
    && |s.queue| <= s.capacity && |s.hand| <= 1
    && s.consumed + s.hand + s.queue == s.offered
    && (forall run | run != 0 :: PendingOf(s, run) == CountOf(s.hand + s.queue, run))
  }

  lemma {:induction false} CountSnoc(es: seq<Envelope>, e: Envelope, run: nat)
    ensures CountOf(es + [e], run) == CountOf(es, run) + if e.run == run then 1 else 0
  {
    assert (es + [e])[..|es|] == es;
  }

  lemma {:induction false} CountFront(e: Envelope, es: seq<Envelope>, run: nat)
    ensures CountOf([e] + es, run) == CountOf(es, run) + if e.run == run then 1 else 0
    decreases |es|
  {
    if es == [] {
      CountSnoc([], e, run);
      assert [e] + es == [] + [e];
    } else {
      CountFront(e, es[..|es| - 1], run);
      assert [e] + es == ([e] + es[..|es| - 1]) + [es[|es| - 1]];
      CountSnoc([e] + es[..|es| - 1], es[|es| - 1], run);
    }
  }

  lemma {:induction false} OfferSound(s: Sub, e: Envelope, serial: nat, loss: nat)
    requires Sound(s)
    ensures Sound(Offered(s, e, serial, loss))
  {
    hide CountOf;
    var s' := Offered(s, e, serial, loss);
    if s.live && Concerns(s, e) && |s.queue| < s.capacity {
      assert s.hand + (s.queue + [e]) == s.hand + s.queue + [e];
      forall run | run != 0
        ensures PendingOf(s', run) == CountOf(s'.hand + s'.queue, run)
      {
        CountSnoc(s.hand + s.queue, e, run);
      }
    }
  }

  lemma {:induction false} TakeSound(s: Sub)
    requires Sound(s) && Enabled(s, Take)
    ensures Sound(Taken(s))
  {
    assert [s.queue[0]] + s.queue[1..] == [] + s.queue;
    assert s.hand == [];
    assert s.consumed + [s.queue[0]] + s.queue[1..] == s.consumed + [] + s.queue;
  }

  lemma {:induction false} UntrackedPending(s: Sub, run: nat, other: nat)
    requires PendingOf(s, run) > 0
    ensures PendingOf(Untracked(s, run), other) == PendingOf(s, other) - if other == run then 1 else 0
  {
  }

  lemma {:induction false} ObservedPending(s: Sub, older: bool, run: nat)
    requires |s.hand| == 1 && run != 0 && (s.hand[0].run != 0 ==> PendingOf(s, s.hand[0].run) > 0)
    ensures PendingOf(Observed(s, older), run) == PendingOf(s, run) - if s.hand[0].run == run then 1 else 0
  {
    hide Untracked;
    var e := s.hand[0];
    if e.run != 0 {
      UntrackedPending(s.(hand := [], consumed := s.consumed + [e]), e.run, run);
    }
  }

  lemma {:induction false} ObservedFrame(s: Sub, older: bool)
    requires |s.hand| == 1
    ensures var s' := Observed(s, older);
      && s'.queue == s.queue && s'.capacity == s.capacity && s'.offered == s.offered
      && s'.hand == [] && s'.consumed == s.consumed + s.hand
  {
  }

  lemma {:induction false} ObserveSound(s: Sub, older: bool)
    requires Sound(s) && |s.hand| == 1
    ensures Sound(Observed(s, older))
  {
    hide CountOf, PendingOf, Observed;
    var e, s' := s.hand[0], Observed(s, older);
    ObservedFrame(s, older);
    assert s.hand == [e];
    assert s'.hand + s'.queue == s.queue;
    if e.run != 0 {
      CountFront(e, s.queue, e.run);
    }
    forall run | run != 0
      ensures PendingOf(s', run) == CountOf(s'.hand + s'.queue, run)
    {
      CountFront(e, s.queue, run);
      ObservedPending(s, older, run);
    }
  }

  lemma {:induction false} SoundStep(s: Sub, t: Step)
    requires Sound(s) && Enabled(s, t)
    ensures Sound(Apply(s, t))
    ensures Apply(s, t).offered == s.offered || (t.Offer? && s.live && Apply(s, t).offered == s.offered + [t.envelope])
    ensures Apply(s, t).live ==> s.live
  {
    hide CountOf;
    match t
    case Offer(e, serial, loss) => OfferSound(s, e, serial, loss);
    case Take => TakeSound(s);
    case Observe(older) => ObserveSound(s, older);
    case Stop(_) =>
  }

  predicate Moves(s: Sub, t: Step, s': Sub) {
    Enabled(s, t) && s' == Apply(s, t)
  }

  ghost predicate Leads(start: Sub, steps: seq<Step>, subs: seq<Sub>) {
    && |subs| == |steps| + 1 && subs[0] == start
    && forall i | 0 <= i < |steps| :: Moves(subs[i], steps[i], subs[i + 1])
  }

  /** What the session delivered to a subscriber it concerns, in delivery order. */
  function Deliveries(s: Sub, steps: seq<Step>): seq<Envelope> {
    if steps == [] then []
    else
      var last := steps[|steps| - 1];
      Deliveries(s, steps[..|steps| - 1]) + if last.Offer? && Concerns(s, last.envelope) then [last.envelope] else []
  }

  /** Over every history of a subscriber: it stays sound, while it is live everything delivered
      that concerns it was offered to it, and once it is stopped what it was offered is a prefix
      of that and grows no more. */
  lemma {:induction false} EveryHistorySound(sessionOnly: bool, capacity: nat, run: nat, serial: nat, steps: seq<Step>, subs: seq<Sub>, n: nat)
    requires Leads(Joining(sessionOnly, capacity, run, serial), steps, subs) && n <= |steps|
    ensures Sound(subs[n]) && subs[n].sessionOnly == sessionOnly
    ensures subs[n].live ==> subs[n].offered == Deliveries(subs[0], steps[..n])
    ensures subs[n].offered <= Deliveries(subs[0], steps[..n])
  {
    hide CountOf, Sound;
    if n == 0 {
      JoiningSound(sessionOnly, capacity, run, serial);
      assert steps[..0] == [];
    } else {
      EveryHistorySound(sessionOnly, capacity, run, serial, steps, subs, n - 1);
      assert Moves(subs[n - 1], steps[n - 1], subs[n]);
      SoundStep(subs[n - 1], steps[n - 1]);
      assert steps[..n][..n - 1] == steps[..n - 1];
      StepDelivers(subs[n - 1], steps[n - 1]);
    }
  }

  lemma {:induction false} JoiningSound(sessionOnly: bool, capacity: nat, run: nat, serial: nat)
    ensures Sound(Joining(sessionOnly, capacity, run, serial))
  {
    var none: seq<Envelope> := [];
    assert none + none == none;
  }

  lemma {:induction false} StepDelivers(s: Sub, t: Step)
    requires Enabled(s, t)
    ensures var s' := Apply(s, t);
      && s'.sessionOnly == s.sessionOnly
      && (s'.live ==> s'.offered == if t.Offer? && Concerns(s, t.envelope) then s.offered + [t.envelope] else s.offered)
      && (s'.offered == s.offered || (s.live && t.Offer? && Concerns(s, t.envelope) && s'.offered == s.offered + [t.envelope]))
  {
  }

  // ------------------------------------------------------------ the run named by a loss

  datatype Candidate = Candidate(run: nat, serial: nat)

  predicate Spent(run: nat, current: nat, finished: set<nat>) {
    run != current && run in finished
  }

  ghost function Candidates(s: Sub, dropped: Candidate, current: Candidate): set<Candidate> {
    {dropped, current}
    + (if s.ack.Some? then {Candidate(s.ack.value, s.ackSerial)} else {})
    + (if s.ackSerial == 0 then {Candidate(s.attached, s.attachedSerial)} else {})
    + PendingCandidates(s, s.pending.Keys)
  }

  ghost function PendingCandidates(s: Sub, runs: set<nat>): set<Candidate> {
    set run | run in runs && PendingOf(s, run) > 0 :: Candidate(run, SerialIn(s, run))
  }

  /** The best of some candidates: the highest serial among those not spent, if there is one. */
  ghost predicate Best(among: set<Candidate>, c: Candidate, live: bool, current: nat, finished: set<nat>) {
    && c in among
    && (live <==> !Spent(c.run, current, finished))
    && (if live then forall o | o in among && !Spent(o.run, current, finished) :: o.serial <= c.serial
        else forall o | o in among :: Spent(o.run, current, finished))
  }

  /** The run a loss is reported for: the newest one not spent. */
  ghost predicate IsLoss(s: Sub, dropped: Candidate, current: Candidate, finished: set<nat>, run: nat) {
    exists c: Candidate :: c.run == run && Best(Candidates(s, dropped, current), c, true, current.run, finished)
  }

  method Consider(ghost among: set<Candidate>, best: Candidate, live: bool, c: Candidate, current: nat, finished: set<nat>)
    returns (best': Candidate, live': bool)
    requires Best(among, best, live, current, finished)
    ensures Best(among + {c}, best', live', current, finished)
  {
    var spent := Spent(c.run, current, finished);
    best', live' := best, live;
    if live && spent {
      return;
    }
    if !live && !spent {
      return c, true;
    }
    if c.serial > best.serial {
      best' := c;
    }
  }

  lemma {:induction false} OneBest(c: Candidate, current: nat, finished: set<nat>)
    ensures Best({c}, c, !Spent(c.run, current, finished), current, finished)
  {
  }

  lemma {:induction false} NoneConsidered(s: Sub)
    ensures PendingCandidates(s, {}) == {}
  {
  }

  lemma {:induction false} MoreConsidered(s: Sub, done: set<nat>, run: nat)
    ensures PendingCandidates(s, done + {run}) ==
      PendingCandidates(s, done) + if PendingOf(s, run) > 0 then {Candidate(run, SerialIn(s, run))} else {}
  {
  }

  lemma {:induction false} CurrentIsLive(among: set<Candidate>, c: Candidate, live: bool, current: Candidate, finished: set<nat>)
    requires Best(among, c, live, current.run, finished) && current in among
    ensures live
  {
  }

  // ------------------------------------------------------------ serials tell the runs apart

  /** A serial is issued once, to one run; serial zero means a run that was never adopted. */
  predicate Known(issued: map<nat, nat>, run: nat, serial: nat) {
    serial > 0 ==> serial in issued && issued[serial] == run
  }

  /** Every serial a subscriber remembers was issued to the run it remembers it for. */
  ghost predicate Told(s: Sub, issued: map<nat, nat>) {
    && Known(issued, s.attached, s.attachedSerial)
    && (if s.ack.Some? then Known(issued, s.ack.value, s.ackSerial) else s.ackSerial == 0)
    && forall run | run in s.serials :: Known(issued, run, s.serials[run])
  }

  lemma {:induction false} ToldStep(s: Sub, t: Step, issued: map<nat, nat>)
    requires Told(s, issued) && Enabled(s, t)
    requires t.Offer? ==> Known(issued, t.envelope.run, t.serial)
    ensures Told(Apply(s, t), issued)
  {
    hide Known, Told, Offered, Observed;
    match t
    case Offer(e, serial, loss) => OfferTold(s, e, serial, loss, issued);
    case Take => SameTold(s, Taken(s), issued);
    case Observe(older) => ObserveTold(s, older, issued);
    case Stop(verdict) => SameTold(s, Stopped(s, verdict), issued);
  }

  lemma {:induction false} SameTold(s: Sub, s': Sub, issued: map<nat, nat>)
    requires Told(s, issued)
    requires s'.attached == s.attached && s'.attachedSerial == s.attachedSerial
    requires s'.ack == s.ack && s'.ackSerial == s.ackSerial && s'.serials == s.serials
    ensures Told(s', issued)
  {
  }

  lemma {:induction false} OfferTold(s: Sub, e: Envelope, serial: nat, loss: nat, issued: map<nat, nat>)
    requires Told(s, issued) && Known(issued, e.run, serial)
    ensures Told(Offered(s, e, serial, loss), issued)
  {
    hide Known;
  }

  lemma {:induction false} AcknowledgedTold(s: Sub, run: nat, issued: map<nat, nat>)
    requires Told(s, issued)
    ensures Told(Acknowledged(s, run), issued)
  {
  }

  lemma {:induction false} ObserveTold(s: Sub, older: bool, issued: map<nat, nat>)
    requires Told(s, issued) && |s.hand| == 1
    ensures Told(Observed(s, older), issued)
  {
    hide Known, Told, Acknowledged;
    var e := s.hand[0];
    var s1 := s.(hand := [], consumed := s.consumed + [e]);
    SameTold(s, s1, issued);
    AcknowledgedTold(s1, e.run, issued);
    SameTold(s1, Untracked(s1, e.run), issued);
  }

  lemma {:induction false} ToldOn(s: Sub, issued: map<nat, nat>, serial: nat, run: nat)
    requires Told(s, issued) && serial !in issued
    ensures Told(s, issued[serial := run])
  {
  }

  lemma {:induction false} ToldTurned(s: Sub, e: Envelope, serial: nat, issued: map<nat, nat>)
    requires Told(s, issued) && Known(issued, e.run, serial)
    ensures Told(Turned(s, e, serial), issued)
  {
  }

  lemma {:induction false} CandidatesKnown(s: Sub, dropped: Candidate, current: Candidate, issued: map<nat, nat>)
    requires Told(s, issued) && Known(issued, dropped.run, dropped.serial) && Known(issued, current.run, current.serial)
    ensures forall c | c in Candidates(s, dropped, current) :: Known(issued, c.run, c.serial)
  {
  }

  ghost predicate OneLoss(s: Sub, dropped: Candidate, current: Candidate, finished: set<nat>) {
    forall a, b | IsLoss(s, dropped, current, finished, a) && IsLoss(s, dropped, current, finished, b) :: a == b
  }

  /** Whatever order the pending runs are taken in, one run is named, exactly when some candidate
      not spent was adopted or all candidates not spent are the same run. */
  lemma {:induction false} LossUnique(s: Sub, dropped: Candidate, current: Candidate, finished: set<nat>, issued: map<nat, nat>)
    requires Told(s, issued) && Known(issued, dropped.run, dropped.serial) && Known(issued, current.run, current.serial)
    ensures OneLoss(s, dropped, current, finished) <==>
      var open := set c | c in Candidates(s, dropped, current) && !Spent(c.run, current.run, finished);
      (exists c :: c in open && c.serial > 0) || (forall c, d | c in open && d in open :: c.run == d.run)
  {
    hide Candidates, Spent;
    var among := Candidates(s, dropped, current);
    var open := set c | c in among && !Spent(c.run, current.run, finished);
    CandidatesKnown(s, dropped, current, issued);
    if (exists c :: c in open && c.serial > 0) || (forall c, d | c in open && d in open :: c.run == d.run) {
      forall a, b | IsLoss(s, dropped, current, finished, a) && IsLoss(s, dropped, current, finished, b)
        ensures a == b
      {
        var c: Candidate :| c.run == a && Best(among, c, true, current.run, finished);
        var d: Candidate :| d.run == b && Best(among, d, true, current.run, finished);
        assert c in open && d in open && c.serial == d.serial;
      }
    } else {
      var c, d :| c in open && d in open && c.run != d.run;
      assert Best(among, c, true, current.run, finished) && Best(among, d, true, current.run, finished);
      assert IsLoss(s, dropped, current, finished, c.run) && IsLoss(s, dropped, current, finished, d.run);
    }
  }

  lemma {:induction false} CurrentDecides(s: Sub, dropped: Candidate, current: Candidate, finished: set<nat>, issued: map<nat, nat>)
    requires Told(s, issued) && Known(issued, dropped.run, dropped.serial) && Known(issued, current.run, current.serial)
    requires current.serial > 0
    ensures OneLoss(s, dropped, current, finished)
  {
    hide OneLoss, Told, Known;
    LossUnique(s, dropped, current, finished, issued);
    assert current in Candidates(s, dropped, current) && !Spent(current.run, current.run, finished);
  }

  /** Over every history of a subscriber whose offers carry serials issued to their runs: while the
      session has a current run that was adopted, a loss names one run. */
  lemma {:induction false} EveryLossUnique(
    sessionOnly: bool, capacity: nat, run: nat, serial: nat, steps: seq<Step>, subs: seq<Sub>, n: nat,
    issued: map<nat, nat>, dropped: Candidate, current: Candidate, finished: set<nat>)
    requires Leads(Joining(sessionOnly, capacity, run, serial), steps, subs) && n <= |steps|
    requires Known(issued, run, serial)
    requires forall i | 0 <= i < n && steps[i].Offer? :: Known(issued, steps[i].envelope.run, steps[i].serial)
    requires Known(issued, dropped.run, dropped.serial) && Known(issued, current.run, current.serial) && current.serial > 0
    ensures Told(subs[n], issued) && OneLoss(subs[n], dropped, current, finished)
  {
    hide OneLoss, Told, Known;
    if n == 0 {
      JoiningTold(sessionOnly, capacity, run, serial, issued);
    } else {
      EveryLossUnique(sessionOnly, capacity, run, serial, steps, subs, n - 1, issued, dropped, current, finished);
      assert Moves(subs[n - 1], steps[n - 1], subs[n]);
      ToldStep(subs[n - 1], steps[n - 1], issued);
    }
    CurrentDecides(subs[n], dropped, current, finished, issued);
  }

  lemma {:induction false} JoiningTold(sessionOnly: bool, capacity: nat, run: nat, serial: nat, issued: map<nat, nat>)
    requires Known(issued, run, serial)
    ensures Told(Joining(sessionOnly, capacity, run, serial), issued)
  {
  }

  // ------------------------------------------------------------ the objects

  /** A subscriber after an offer it cannot take has been counted and uncounted: what the loss
      is judged on. */
  function Turned(s: Sub, e: Envelope, serial: nat): Sub {
    if e.run != 0 then Untracked(Tracked(s, e.run, serial), e.run) else s
  }

  /** A subscriber was offered an envelope, and if it was stopped for it a newest unspent run was named. */
  ghost predicate Served(s: Sub, s': Sub, e: Envelope, serial: nat, current: Candidate, finished: set<nat>) {
    exists loss ::
      && s' == Offered(s, e, serial, loss)
      && (s'.live || IsLoss(Turned(s, e, serial), Candidate(e.run, serial), current, finished, loss))
  }

  class Subscriber {
    const sessionOnly: bool
    const capacity: nat
    const attached: nat
    const attachedSerial: nat
    var queue: seq<Envelope>
    var pending: map<nat, nat>
    var runSerials: map<nat, nat>
    var ack: Option<nat>
    var ackSerial: nat
    var live: bool
    var verdict: Option<Verdict>
    ghost var hand: seq<Envelope>
    ghost var offered: seq<Envelope>
    ghost var consumed: seq<Envelope>

    ghost function View(): Sub
      reads this
    {
      Sub(sessionOnly, capacity, queue, hand, pending, runSerials, ack, ackSerial, attached, attachedSerial,
          live, verdict, offered, consumed)
    }

    constructor (sessionOnly: bool, capacity: nat, run: nat, serial: nat)
      ensures View() == Joining(sessionOnly, capacity, run, serial) && Sound(View())
    {
      this.sessionOnly, this.capacity, attached, attachedSerial := sessionOnly, capacity, run, serial;
      queue, pending, runSerials, ack, ackSerial := [], map[], map[], None, 0;
      live, verdict, hand, offered, consumed := true, None, [], [], [];
      new;
      JoiningSound(sessionOnly, capacity, run, serial);
    }

    method Track(run: nat, serial: nat)
      modifies this`pending, this`runSerials
      ensures View() == Tracked(old(View()), run, serial)
    {
      pending := pending[run := (if run in pending then pending[run] else 0) + 1];
      runSerials := runSerials[run := serial];
    }

    method Untrack(run: nat)
      modifies this`pending
      ensures View() == Untracked(old(View()), run)
    {
      if run in pending && pending[run] > 0 {
        pending := pending[run := pending[run] - 1];
      }
    }

    method Acknowledge(run: nat)
      modifies this`pending, this`ack, this`ackSerial
      ensures View() == Acknowledged(old(View()), run)
    {
      Untrack(run);
      var serial := if run in runSerials then runSerials[run] else 0;
      if serial > ackSerial {
        ackSerial, ack := serial, Some(run);
      } else if ack.None? {
        ack := Some(run);
      }
    }

    method Stop(state: Option<Verdict>)
      modifies this`live, this`verdict
      ensures View() == Stopped(old(View()), state)
    {
      if verdict.None? {
        verdict := state;
      }
      live := false;
    }

    /** The run a loss is named for. The pending runs come in any order, and the answer is a
        newest run not spent. */
    method LossRun(dropped: Candidate, current: Candidate, finished: set<nat>) returns (run: nat)
      ensures IsLoss(View(), dropped, current, finished, run)
    {
      hide Best, PendingCandidates;
      var best, unspent := dropped, !Spent(dropped.run, current.run, finished);
      ghost var among := {dropped};
      OneBest(dropped, current.run, finished);
      if ack.Some? {
        best, unspent := Consider(among, best, unspent, Candidate(ack.value, ackSerial), current.run, finished);
        among := among + {Candidate(ack.value, ackSerial)};
      }
      if ackSerial == 0 {
        best, unspent := Consider(among, best, unspent, Candidate(attached, attachedSerial), current.run, finished);
        among := among + {Candidate(attached, attachedSerial)};
      }
      best, unspent := ConsiderPending(among, best, unspent, current.run, finished);
      among := among + PendingCandidates(View(), pending.Keys);
      best, unspent := Consider(among, best, unspent, current, current.run, finished);
      among := among + {current};
      assert among == Candidates(View(), dropped, current);
      CurrentIsLive(among, best, unspent, current, finished);
      return best.run;
    }

    method ConsiderPending(ghost among: set<Candidate>, first: Candidate, firstLive: bool, current: nat, finished: set<nat>)
      returns (best: Candidate, unspent: bool)
      requires Best(among, first, firstLive, current, finished)
      ensures Best(among + PendingCandidates(View(), pending.Keys), best, unspent, current, finished)
    {
      hide Best, PendingCandidates;
      best, unspent := first, firstLive;
      var todo := pending.Keys;
      ghost var done: set<nat> := {};
      NoneConsidered(View());
      assert among + {} == among;
      while todo != {}
        invariant todo + done == pending.Keys
        invariant Best(among + PendingCandidates(View(), done), best, unspent, current, finished)
        decreases |todo|
      {
        var r :| r in todo;
        todo := todo - {r};
        ghost var before := among + PendingCandidates(View(), done);
        MoreConsidered(View(), done, r);
        done := done + {r};
        if pending[r] == 0 {
          assert before == among + PendingCandidates(View(), done);
          continue;
        }
        var c := Candidate(r, if r in runSerials then runSerials[r] else 0);
        best, unspent := Consider(before, best, unspent, c, current, finished);
        assert before + {c} == among + PendingCandidates(View(), done);
      }
      assert done == pending.Keys;
    }

    /** One delivery: queued, or the subscriber is stopped and the run it lost named. */
    method Offer(e: Envelope, serial: nat, current: Candidate, finished: set<nat>, ghost issued: map<nat, nat>)
      requires Sound(View()) && Told(View(), issued) && Known(issued, e.run, serial) && live
      modifies this
      ensures Sound(View()) && Told(View(), issued) && Served(old(View()), View(), e, serial, current, finished)
    {
      hide Sound, Told, IsLoss, CountOf;
      ghost var was := View();
      if sessionOnly && e.run != 0 {
        assert View() == Offered(was, e, serial, 0);
        ToldStep(was, Step.Offer(e, serial, 0), issued);
        return;
      }
      if e.run != 0 {
        Track(e.run, serial);
      }
      if |queue| < capacity {
        queue := queue + [e];
        offered := offered + [e];
        assert View() == Offered(was, e, serial, 0);
        OfferSound(was, e, serial, 0);
        ToldStep(was, Step.Offer(e, serial, 0), issued);
        return;
      }
      if e.run != 0 {
        Untrack(e.run);
      }
      var loss := LossRun(Candidate(e.run, serial), current, finished);
      Stop(Some(Overflow(loss)));
      assert View() == Offered(was, e, serial, loss);
      OfferSound(was, e, serial, loss);
      ToldStep(was, Step.Offer(e, serial, loss), issued);
    }

    method Take(ghost issued: map<nat, nat>) returns (e: Envelope)
      requires Sound(View()) && Told(View(), issued) && queue != [] && hand == []
      modifies this`queue, this`hand
      ensures View() == Taken(old(View())) && [e] == hand && Sound(View()) && Told(View(), issued)
    {
      ToldStep(View(), Step.Take, issued);
      TakeSound(View());
      e := queue[0];
      hand, queue := [e], queue[1..];
    }

    method Observe(e: Envelope, older: bool, ghost issued: map<nat, nat>)
      requires Sound(View()) && Told(View(), issued) && hand == [e]
      modifies this
      ensures View() == Observed(old(View()), older) && Sound(View()) && Told(View(), issued)
    {
      hide CountOf, Untracked, Acknowledged, Told;
      ObserveSound(View(), older);
      ToldStep(View(), Step.Observe(older), issued);
      hand, consumed := [], consumed + [e];
      if e.run == 0 {
        return;
      }
      if older {
        Untrack(e.run);
      } else {
        Acknowledge(e.run);
      }
    }
  }

  /** Every serial was issued to the one run it stands for, and for good. */
  ghost predicate Issued(serials: map<nat, nat>, issued: map<nat, nat>, nextSerial: nat) {
    && (forall r | r in serials :: 0 < serials[r] <= nextSerial && Known(issued, r, serials[r]))
    && (forall k | k in issued :: k <= nextSerial)
  }

  lemma {:induction false} IssuedNext(serials: map<nat, nat>, issued: map<nat, nat>, nextSerial: nat, run: nat)
    requires Issued(serials, issued, nextSerial)
    ensures Issued(serials[run := nextSerial + 1], issued[nextSerial + 1 := run], nextSerial + 1) && nextSerial + 1 !in issued
  {
  }

  /** The session's side: every attached subscriber is offered every delivery. */
  class Exchange {
    var subs: set<Subscriber>
    var run: nat
    var serials: map<nat, nat>
    var finished: set<nat>
    var nextSerial: nat
    ghost var issued: map<nat, nat>

    /** Serials tell runs apart, and only runs that were adopted finish. */
    ghost predicate Numbered()
      reads this
    {
      && Issued(serials, issued, nextSerial)
      && (run != 0 ==> run in serials) && finished <= serials.Keys
    }

    ghost predicate Valid()
      reads this, subs
    {
      Numbered() && forall s | s in subs :: s.live && Sound(s.View()) && Told(s.View(), issued)
    }

    constructor ()
      ensures Valid() && subs == {} && serials == map[] && finished == {} && run == 0
    {
      subs, run, serials, finished, nextSerial, issued := {}, 0, map[], {}, 0, map[];
    }

    /** A run adopted takes the next serial, and is the current run unless it was queued. */
    method AdoptRun(id: nat, queued: bool)
      requires Valid() && id != 0
      modifies this`run, this`serials, this`finished, this`nextSerial, this`issued
      ensures issued == old(issued)[nextSerial := id]
      ensures Valid() && nextSerial == old(nextSerial) + 1 && serials == old(serials)[id := nextSerial]
      ensures finished == old(finished) - {id} && run == if queued then old(run) else id
    {
      hide Sound, Told, Issued, Subscriber.View;
      IssuedNext(serials, issued, nextSerial, id);
      nextSerial := nextSerial + 1;
      forall s | s in subs
        ensures Told(s.View(), issued[nextSerial := id])
      {
        ToldOn(s.View(), issued, nextSerial, id);
      }
      issued := issued[nextSerial := id];
      serials := serials[id := nextSerial];
      finished := finished - {id};
      if !queued {
        run := id;
      }
    }

    /** A newer run's envelope makes it current, unless it ends the run. */
    method PromoteCurrent(id: nat, terminal: bool)
      requires Valid()
      modifies this`run
      ensures Valid()
      ensures run == if !terminal && id in serials && (old(run) !in serials || serials[id] > serials[old(run)]) then id else old(run)
    {
      hide Sound, Told;
      if !terminal && id in serials && (run !in serials || serials[id] > serials[run]) {
        run := id;
      }
    }

    method FinishRun(id: nat)
      requires Valid() && id in serials
      modifies this`finished
      ensures Valid() && finished == old(finished) + {id}
    {
      hide Sound, Told;
      finished := finished + {id};
    }

    method Subscribe(queue: nat, sessionOnly: bool) returns (sub: Subscriber)
      requires Valid()
      modifies this`subs
      ensures fresh(sub) && subs == old(subs) + {sub} && Valid()
      ensures sub.View() == Joining(sessionOnly, queue, run, if run in serials then serials[run] else 0)
    {
      sub := new Subscriber(sessionOnly, queue, run, if run in serials then serials[run] else 0);
      JoiningTold(sessionOnly, queue, run, if run in serials then serials[run] else 0, issued);
      subs := subs + {sub};
    }

    /** A delivery reaches every subscriber, in any order; those that could not take it are detached. */
    method Deliver(e: Envelope)
      requires Valid()
      modifies this`subs, subs
      ensures Valid() && subs <= old(subs) && forall s | s in old(subs) :: s in subs <==> s.live
      ensures var serial := if e.run in serials then serials[e.run] else 0;
        var current := Candidate(run, if run in serials then serials[run] else 0);
        forall s | s in old(subs) ::
          && Served(old(s.View()), s.View(), e, serial, current, finished)
          && (run != 0 ==> OneLoss(Turned(old(s.View()), e, serial), Candidate(e.run, serial), current, finished))
    {
      hide Sound, Told, Served, OneLoss, Subscriber.View, Turned;
      var serial := if e.run in serials then serials[e.run] else 0;
      var current := Candidate(run, if run in serials then serials[run] else 0);
      if run != 0 {
        forall s | s in subs
          ensures OneLoss(Turned(s.View(), e, serial), Candidate(e.run, serial), current, finished)
        {
          ToldTurned(s.View(), e, serial, issued);
          CurrentDecides(Turned(s.View(), e, serial), Candidate(e.run, serial), current, finished, issued);
        }
      }
      OfferAll(e, serial, current, finished);
    }

    method OfferAll(e: Envelope, serial: nat, current: Candidate, finished: set<nat>)
      requires Valid() && Known(issued, e.run, serial)
      modifies this`subs, subs
      ensures Valid() && subs <= old(subs) && forall s | s in old(subs) :: s in subs <==> s.live
      ensures forall s | s in old(subs) :: Served(old(s.View()), s.View(), e, serial, current, finished)
    {
      hide Sound, Told, Served, Issued, Subscriber.View;
      var todo := subs;
      while todo != {}
        invariant todo <= subs <= old(subs)
        invariant forall s | s in todo :: s.View() == old(s.View())
        invariant forall s | s in old(subs) :: Sound(s.View()) && Told(s.View(), issued) && (s in subs <==> s.live)
        invariant forall s | s in old(subs) - todo :: Served(old(s.View()), s.View(), e, serial, current, finished)
        decreases |todo|
      {
        var sub :| sub in todo;
        todo := todo - {sub};
        sub.Offer(e, serial, current, finished, issued);
        if !sub.live {
          subs := subs - {sub};
        }
      }
    }
  }
}
