/** The publication gate of a hub session: while a request is in flight, the envelopes of the
    runs it touches are withheld, released up to a boundary, and let go when it is lifted. */
module HubGate {
  import opened Basics

  /** An envelope; run 0 is the session itself, and settles names the request a steer
      settlement answers, or 0. */
  datatype Envelope = Envelope(id: nat, run: nat, sequence: Option<nat>, settles: nat)

  /** A gate; its token stands for its identity. */
  datatype Gate = Gate(token: nat, runs: seq<nat>, task: bool, request: nat, boundary: nat, withheld: seq<Envelope>)

  /** A session's gate beside everything published and delivered; coveredAt is how much had been
      delivered when each run of the gate was covered, released the boundaries used since. */
  datatype Hub = Hub(
    closed: bool, gate: Option<Gate>, tokens: nat, sequences: map<nat, nat>, stateSequence: nat,
    published: seq<Envelope>, delivered: seq<Envelope>, coveredAt: map<nat, nat>, released: set<nat>)

  const NEW := Hub(false, None, 0, map[], 0, [], [], map[], {})

  predicate Withholds(g: Gate, e: Envelope) {
    || (g.task && e.run == 0)
    || (exists i :: 0 <= i < |g.runs| && g.runs[i] == e.run)
    || (g.request != 0 && e.settles == g.request)
  }

  function Withheld(h: Hub): seq<Envelope> {
    if h.gate.Some? then h.gate.value.withheld else []
  }

  predicate AtMost(e: Envelope, boundary: nat) {
    e.sequence.Some? && e.sequence.value <= boundary
  }

  function Within(es: seq<Envelope>, boundary: nat): seq<Envelope> {
    if es == [] then []
    else Within(es[..|es| - 1], boundary) + if AtMost(es[|es| - 1], boundary) then [es[|es| - 1]] else []
  }

  function Beyond(es: seq<Envelope>, boundary: nat): seq<Envelope> {
    if es == [] then []
    else Beyond(es[..|es| - 1], boundary) + if AtMost(es[|es| - 1], boundary) then [] else [es[|es| - 1]]
  }

  /** The envelopes of one run, in order. */
  function Scope(es: seq<Envelope>, run: nat): seq<Envelope> {
    if es == [] then []
    else Scope(es[..|es| - 1], run) + if es[|es| - 1].run == run then [es[|es| - 1]] else []
  }

  function SequencesAfter(sequences: map<nat, nat>, e: Envelope): map<nat, nat> {
    if e.run != 0 && e.sequence.Some? && e.sequence.value > (if e.run in sequences then sequences[e.run] else 0)
    then sequences[e.run := e.sequence.value]
    else sequences
  }

  function SequencesAfterAll(sequences: map<nat, nat>, es: seq<Envelope>): map<nat, nat> {
    if es == [] then sequences else SequencesAfter(SequencesAfterAll(sequences, es[..|es| - 1]), es[|es| - 1])
  }

  function Delivering(h: Hub, es: seq<Envelope>): Hub {
    h.(sequences := SequencesAfterAll(h.sequences, es), delivered := h.delivered + es)
  }

  // ------------------------------------------------------------ the steps

  datatype Step =
    | Arm(run: nat, task: bool, request: nat)
    | Retarget(token: nat, run: nat)
    | Publish(envelope: Envelope)
    | PublishState(id: nat)
    | Release(token: nat, boundary: nat)
    | Lift(token: nat)
    | Close

  function SequenceOf(h: Hub, run: nat): nat {
    if run in h.sequences then h.sequences[run] else 0
  }

  function ArmHub(h: Hub, run: nat, task: bool, request: nat): Hub {
    if h.gate.Some? || h.closed then h
    else h.(gate := Some(Gate(h.tokens, if run == 0 then [] else [run], task, request, SequenceOf(h, run), [])),
            tokens := h.tokens + 1,
            coveredAt := if run == 0 then map[] else map[run := |h.delivered|],
            released := {})
  }

  predicate Holds(h: Hub, token: nat) {
    h.gate.Some? && h.gate.value.token == token
  }

  function RetargetHub(h: Hub, token: nat, run: nat): Hub {
    if !Holds(h, token) || run == 0 || run in h.gate.value.runs then h
    else h.(gate := Some(h.gate.value.(runs := h.gate.value.runs + [run])), coveredAt := h.coveredAt[run := |h.delivered|])
  }

  function PublishHub(h: Hub, e: Envelope): Hub {
    var p := h.(published := h.published + [e]);
    if h.gate.Some? && Withholds(h.gate.value, e) then
      p.(gate := Some(h.gate.value.(withheld := h.gate.value.withheld + [e])))
    else Delivering(p, [e])
  }

  function StateEvent(h: Hub, id: nat): Envelope {
    Envelope(id, 0, Some(h.stateSequence + 1), 0)
  }

  function PublishStateHub(h: Hub, id: nat): Hub {
    if h.closed then h else PublishHub(h.(stateSequence := h.stateSequence + 1), StateEvent(h, id))
  }

  function ReleaseHub(h: Hub, token: nat, boundary: nat): Hub {
    if !Holds(h, token) then h
    else
      var g := h.gate.value;
      Delivering(h.(gate := Some(g.(withheld := Beyond(g.withheld, boundary), boundary := boundary)),
                    released := h.released + {boundary}),
                 Within(g.withheld, boundary))
  }

  function LiftHub(h: Hub, token: nat): Hub {
    if !Holds(h, token) then h else Delivering(h.(gate := None), h.gate.value.withheld)
  }

  function CloseHub(h: Hub): Hub {
    Delivering(h.(closed := true, gate := None), Withheld(h))
  }

  function Apply(h: Hub, s: Step): Hub {
    match s
    case Arm(run, task, request) => ArmHub(h, run, task, request)
    case Retarget(token, run) => RetargetHub(h, token, run)
    case Publish(e) => PublishHub(h, e)
    case PublishState(id) => PublishStateHub(h, id)
    case Release(token, boundary) => ReleaseHub(h, token, boundary)
    case Lift(token) => LiftHub(h, token)
    case Close => CloseHub(h)
  }

  function After(steps: seq<Step>): Hub {
    if steps == [] then NEW else Apply(After(steps[..|steps| - 1]), steps[|steps| - 1])
  }

  // ------------------------------------------------------------ nothing lost, nothing twice

  /** Whatever was published was delivered once or is withheld once. */
  ghost predicate Whole(h: Hub) {
    multiset(h.delivered) + multiset(Withheld(h)) == multiset(h.published)
  }

  lemma {:induction false} SplitWhole(es: seq<Envelope>, boundary: nat)
    ensures multiset(Within(es, boundary)) + multiset(Beyond(es, boundary)) == multiset(es)
    decreases |es|
  {
    if es != [] {
      var front, last := es[..|es| - 1], es[|es| - 1];
      SplitWhole(front, boundary);
      assert es == front + [last];
      SplitLast(front, last, boundary);
      hide Within, Beyond;
      assert multiset(es) == multiset(front) + multiset{last};
    }
  }

  lemma {:induction false} SplitLast(front: seq<Envelope>, last: Envelope, boundary: nat)
    ensures multiset(Within(front + [last], boundary)) + multiset(Beyond(front + [last], boundary))
         == multiset(Within(front, boundary)) + multiset(Beyond(front, boundary)) + multiset{last}
  {
    assert (front + [last])[..|front|] == front;
  }

  /** A hub to which some withheld envelopes are delivered, the rest staying withheld. */
  lemma {:induction false} WholeDelivery(h: Hub, h': Hub, es: seq<Envelope>)
    requires Whole(h) && h'.published == h.published && h'.delivered == h.delivered + es
    requires multiset(es) + multiset(Withheld(h')) == multiset(Withheld(h))
    ensures Whole(h')
  {
    hide Withheld;
    assert multiset(h'.delivered) == multiset(h.delivered) + multiset(es);
  }

  lemma {:induction false} WholeRelease(h: Hub, token: nat, boundary: nat)
    requires Whole(h)
    ensures Whole(ReleaseHub(h, token, boundary))
  {
    hide Within, Beyond, SequencesAfterAll, Whole;
    if Holds(h, token) {
      SplitWhole(Withheld(h), boundary);
      WholeDelivery(h, ReleaseHub(h, token, boundary), Within(Withheld(h), boundary));
    }
  }

  lemma {:induction false} WholeEmptied(h: Hub, h': Hub)
    requires Whole(h) && h'.published == h.published && h'.delivered == h.delivered + Withheld(h) && h'.gate.None?
    ensures Whole(h')
  {
    hide Whole;
    WholeDelivery(h, h', Withheld(h));
  }

  lemma {:induction false} WholeStep(h: Hub, s: Step)
    requires Whole(h)
    ensures Whole(Apply(h, s))
  {
    hide Withholds, SequencesAfterAll, Within, Beyond, PublishHub, ReleaseHub;
    match s
    case Arm(_, _, _) =>
    case Retarget(_, _) =>
    case Publish(e) => WholePublish(h, e);
    case PublishState(id) =>
      if !h.closed {
        WholePublish(h.(stateSequence := h.stateSequence + 1), StateEvent(h, id));
      }
    case Release(token, boundary) => WholeRelease(h, token, boundary);
    case Lift(token) =>
      if Holds(h, token) {
        WholeEmptied(h, LiftHub(h, token));
      }
    case Close => WholeEmptied(h, CloseHub(h));
  }

  lemma {:induction false} WholePublish(h: Hub, e: Envelope)
    requires Whole(h)
    ensures Whole(PublishHub(h, e))
  {
    hide Withholds, SequencesAfterAll;
  }

  /** Over every history, whatever the envelopes and whatever the gates: delivered plus withheld
      is exactly what was published. */
  lemma {:induction false} NothingLost(steps: seq<Step>)
    ensures Whole(After(steps))
  {
    if steps != [] {
      NothingLost(steps[..|steps| - 1]);
      WholeStep(After(steps[..|steps| - 1]), steps[|steps| - 1]);
    }
  }

  // ------------------------------------------------------------ in order

  ghost predicate InOrder(h: Hub, run: nat) {
    Scope(h.delivered, run) + Scope(Withheld(h), run) == Scope(h.published, run)
  }

  lemma {:induction false} ScopeConcat(a: seq<Envelope>, b: seq<Envelope>, run: nat)
    ensures Scope(a + b, run) == Scope(a, run) + Scope(b, run)
    decreases |b|
  {
    if b == [] {
      assert a + b == a;
    } else {
      ScopeConcat(a, b[..|b| - 1], run);
      assert (a + b)[..|a + b| - 1] == a + b[..|b| - 1];
    }
  }

  lemma {:induction false} ScopeMembers(es: seq<Envelope>, run: nat)
    ensures forall e :: e in Scope(es, run) <==> e in es && e.run == run
    decreases |es|
  {
    if es != [] {
      ScopeMembers(es[..|es| - 1], run);
      assert es == es[..|es| - 1] + [es[|es| - 1]];
    }
  }

  lemma {:induction false} ScopeSplit(es: seq<Envelope>, boundary: nat, run: nat)
    ensures Scope(Within(es, boundary), run) == Within(Scope(es, run), boundary)
    ensures Scope(Beyond(es, boundary), run) == Beyond(Scope(es, run), boundary)
    decreases |es|
  {
    if es != [] {
      var front, last := es[..|es| - 1], es[|es| - 1];
      ScopeSplit(front, boundary, run);
      assert es == front + [last];
      SplitSnoc(front, last, boundary);
      SplitSnoc(Scope(front, run), last, boundary);
      ScopeSnoc(front, last, run);
      ScopeSnoc(Within(front, boundary), last, run);
      ScopeSnoc(Beyond(front, boundary), last, run);
    }
  }

  lemma {:induction false} ScopeSnoc(es: seq<Envelope>, e: Envelope, run: nat)
    ensures Scope(es + [e], run) == if e.run == run then Scope(es, run) + [e] else Scope(es, run)
  {
    assert (es + [e])[..|es|] == es;
  }

  lemma {:induction false} ScopeOne(e: Envelope, run: nat)
    ensures Scope([e], run) == (if e.run == run then [e] else []) && Scope([], run) == []
  {
    assert [e][..0] == [];
  }

  lemma {:induction false} SplitSnoc(es: seq<Envelope>, e: Envelope, boundary: nat)
    ensures Within(es + [e], boundary) == if AtMost(e, boundary) then Within(es, boundary) + [e] else Within(es, boundary)
    ensures Beyond(es + [e], boundary) == if AtMost(e, boundary) then Beyond(es, boundary) else Beyond(es, boundary) + [e]
  {
    assert (es + [e])[..|es|] == es;
  }

  /** The envelopes at most at a boundary all come before the others. */
  predicate Cut(es: seq<Envelope>, boundary: nat) {
    forall i, j | 0 <= i < j < |es| && AtMost(es[j], boundary) :: AtMost(es[i], boundary)
  }

  lemma {:induction false} WithinMembers(es: seq<Envelope>, boundary: nat)
    ensures forall e | e in Within(es, boundary) :: AtMost(e, boundary)
    ensures forall e | e in Beyond(es, boundary) :: !AtMost(e, boundary)
    decreases |es|
  {
    if es != [] {
      WithinMembers(es[..|es| - 1], boundary);
    }
  }

  lemma {:induction false} SplitAt(es: seq<Envelope>, boundary: nat, t: nat)
    requires Within(es, boundary) + Beyond(es, boundary) == es && t < |es|
    ensures AtMost(es[t], boundary) <==> t < |Within(es, boundary)|
  {
    var w, b := Within(es, boundary), Beyond(es, boundary);
    WithinMembers(es, boundary);
    if t < |w| {
      assert es[t] == w[t] && w[t] in w;
    } else {
      assert es[t] == b[t - |w|] && b[t - |w|] in b;
    }
  }

  /** Releasing to a boundary keeps a run's order exactly when its withheld envelopes at most
      at the boundary come before its others. */
  lemma {:induction false} SplitInOrder(es: seq<Envelope>, boundary: nat)
    ensures Within(es, boundary) + Beyond(es, boundary) == es <==> Cut(es, boundary)
    decreases |es|
  {
    var w, b := Within(es, boundary), Beyond(es, boundary);
    WithinMembers(es, boundary);
    if w + b == es {
      forall i, j | 0 <= i < j < |es| && AtMost(es[j], boundary)
        ensures AtMost(es[i], boundary)
      {
        SplitAt(es, boundary, i);
        SplitAt(es, boundary, j);
      }
    }
    if Cut(es, boundary) && es != [] {
      var front, last := es[..|es| - 1], es[|es| - 1];
      SplitInOrder(front, boundary);
      assert Cut(front, boundary);
      if AtMost(last, boundary) {
        AllWithin(front, boundary);
      }
    }
  }

  lemma {:induction false} AllWithin(es: seq<Envelope>, boundary: nat)
    requires forall i | 0 <= i < |es| :: AtMost(es[i], boundary)
    ensures Within(es, boundary) == es && Beyond(es, boundary) == []
    decreases |es|
  {
    if es != [] {
      AllWithin(es[..|es| - 1], boundary);
    }
  }

  predicate Rising(es: seq<Envelope>) {
    && (forall i | 0 <= i < |es| :: es[i].sequence.Some?)
    && forall i, j | 0 <= i < j < |es| :: es[i].sequence.value < es[j].sequence.value
  }

  /** A publication of a run keeps to its run's numbering; state events the session numbers itself. */
  ghost predicate StepNumbered(h: Hub, s: Step) {
    s.Publish? ==> s.envelope.run != 0 && Rising(Scope(h.published + [s.envelope], s.envelope.run))
  }

  /** An envelope let through while one of its own run is withheld. */
  predicate Overtakes(h: Hub, e: Envelope) {
    !(h.gate.Some? && Withholds(h.gate.value, e)) && Scope(Withheld(h), e.run) != []
  }

  predicate StepOvertakes(h: Hub, s: Step) {
    match s
    case Publish(e) => Overtakes(h, e)
    case PublishState(id) => !h.closed && Overtakes(h, StateEvent(h, id))
    case _ => false
  }

  /** State events are numbered by the session itself. */
  ghost predicate StateNumbered(h: Hub) {
    forall e | e in h.published && e.run == 0 :: e.sequence.Some? && e.sequence.value <= h.stateSequence
  }

  ghost predicate AllInOrder(h: Hub) {
    forall run :: InOrder(h, run)
  }

  ghost predicate Sound(h: Hub) {
    AllInOrder(h) && (forall run :: Rising(Scope(h.published, run))) && StateNumbered(h)
  }

  lemma {:induction false} ScopeNone(es: seq<Envelope>, run: nat)
    requires forall e | e in es :: e.run != run
    ensures Scope(es, run) == []
  {
    ScopeMembers(es, run);
    if Scope(es, run) != [] {
      assert Scope(es, run)[0] in Scope(es, run);
    }
  }

  lemma {:induction false} RisingCut(es: seq<Envelope>, boundary: nat)
    requires Rising(es)
    ensures Cut(es, boundary)
  {
  }

  lemma {:induction false} RisingTail(a: seq<Envelope>, b: seq<Envelope>)
    requires Rising(a + b)
    ensures Rising(b)
  {
    forall i, j | 0 <= i < j < |b|
      ensures b[i].sequence.Some? && b[j].sequence.Some? && b[i].sequence.value < b[j].sequence.value
    {
      assert (a + b)[|a| + i] == b[i] && (a + b)[|a| + j] == b[j];
    }
    forall i | 0 <= i < |b|
      ensures b[i].sequence.Some?
    {
      assert (a + b)[|a| + i] == b[i];
    }
  }

  // ------------------------------------------------------------ each step keeps the order

  /** Publishing keeps a run's order exactly when the envelope does not overtake one of it. */
  lemma {:induction false} InOrderPublish(h: Hub, e: Envelope, run: nat)
    requires InOrder(h, run) && (e.run == run ==> Rising(Scope(h.published + [e], run)))
    ensures InOrder(PublishHub(h, e), run) <==> !(e.run == run && Overtakes(h, e))
  {
    hide Withholds, SequencesAfterAll, Scope, Rising;
    ScopeSnoc(h.published, e, run);
    if h.gate.Some? && Withholds(h.gate.value, e) {
      ScopeSnoc(Withheld(h), e, run);
    } else {
      ScopeSnoc(h.delivered, e, run);
      if e.run == run {
        LastNotFirst(Scope(h.delivered, run), Scope(Withheld(h), run), e);
      }
    }
  }

  /** In a rising sequence the last envelope cannot stand before the others. */
  lemma {:induction false} LastNotFirst(d: seq<Envelope>, w: seq<Envelope>, e: Envelope)
    requires Rising(d + w + [e])
    ensures d + [e] + w == d + w + [e] <==> w == []
  {
    if w != [] {
      assert (d + w + [e])[|d|] == w[0] && (d + w + [e])[|d| + |w|] == e;
      assert (d + [e] + w)[|d|] == e;
    }
  }

  lemma {:induction false} InOrderDeliver(h: Hub, h': Hub, run: nat)
    requires InOrder(h, run) && h'.published == h.published && h'.delivered == h.delivered + Withheld(h) && Withheld(h') == []
    ensures InOrder(h', run)
  {
    ScopeConcat(h.delivered, Withheld(h), run);
    ScopeOne(Envelope(0, 0, None, 0), run);
  }

  lemma {:induction false} InOrderRelease(h: Hub, token: nat, boundary: nat, run: nat)
    requires InOrder(h, run) && Rising(Scope(h.published, run)) && Holds(h, token)
    ensures InOrder(ReleaseHub(h, token, boundary), run)
  {
    hide SequencesAfterAll, Scope, Rising, Within, Beyond, Cut;
    var w := h.gate.value.withheld;
    RisingTail(Scope(h.delivered, run), Scope(w, run));
    RisingCut(Scope(w, run), boundary);
    SplitInOrder(Scope(w, run), boundary);
    ScopeSplit(w, boundary, run);
    ScopeConcat(h.delivered, Within(w, boundary), run);
    assert Scope(h.delivered, run) + Within(Scope(w, run), boundary) + Beyond(Scope(w, run), boundary)
        == Scope(h.delivered, run) + (Within(Scope(w, run), boundary) + Beyond(Scope(w, run), boundary));
  }

  lemma {:induction false} SoundPublish(h: Hub, e: Envelope)
    requires Sound(h) && Rising(Scope(h.published + [e], e.run))
    requires e.run == 0 ==> e.sequence.Some? && e.sequence.value <= h.stateSequence
    ensures AllInOrder(PublishHub(h, e)) <==> !Overtakes(h, e)
    ensures !Overtakes(h, e) ==> Sound(PublishHub(h, e))
  {
    hide Withholds, SequencesAfterAll, Scope, Rising, Overtakes;
    var h' := PublishHub(h, e);
    InOrderPublish(h, e, e.run);
    forall run
      ensures run == e.run || InOrder(h', run)
      ensures Rising(Scope(h'.published, run))
    {
      InOrderPublish(h, e, run);
      ScopeSnoc(h.published, e, run);
      assert Rising(Scope(h.published, run));
    }
  }

  lemma {:induction false} StateRises(h: Hub, id: nat)
    requires Sound(h)
    ensures Rising(Scope(h.published + [StateEvent(h, id)], 0))
  {
    hide Scope, Rising, InOrder;
    var e := StateEvent(h, id);
    ScopeSnoc(h.published, e, 0);
    ScopeMembers(h.published, 0);
    assert Rising(Scope(h.published, 0));
    RisingSnoc(Scope(h.published, 0), e);
  }

  lemma {:induction false} RisingSnoc(es: seq<Envelope>, e: Envelope)
    requires Rising(es) && e.sequence.Some?
    requires forall x | x in es :: x.sequence.Some? && x.sequence.value < e.sequence.value
    ensures Rising(es + [e])
  {
    assert forall i | 0 <= i < |es| :: es[i] in es;
  }

  lemma {:induction false} BeyondMembers(es: seq<Envelope>, boundary: nat)
    ensures forall e | e in Beyond(es, boundary) || e in Within(es, boundary) :: e in es
    decreases |es|
  {
    if es != [] {
      BeyondMembers(es[..|es| - 1], boundary);
      assert forall e | e in es[..|es| - 1] :: e in es;
    }
  }

  /** A step keeps every run's order exactly when it lets no envelope overtake one of its run. */
  lemma {:induction false} SoundStep(h: Hub, s: Step)
    requires Sound(h) && StepNumbered(h, s)
    ensures AllInOrder(Apply(h, s)) <==> !StepOvertakes(h, s)
    ensures !StepOvertakes(h, s) ==> Sound(Apply(h, s))
  {
    hide Withholds, SequencesAfterAll, Scope, Rising, Within, Beyond, PublishHub, Overtakes;
    match s
    case Arm(_, _, _) => SoundBeside(h, Apply(h, s));
    case Retarget(token, run) => SoundBeside(h, Apply(h, s));
    case Publish(e) => SoundPublish(h, e);
    case PublishState(id) =>
      if !h.closed {
        var h1 := h.(stateSequence := h.stateSequence + 1);
        StateRises(h, id);
        SoundBeside(h, h1);
        SameWithheld(h, h1, StateEvent(h, id));
        SoundPublish(h1, StateEvent(h, id));
      }
    case Release(token, boundary) =>
      if Holds(h, token) {
        SoundRelease(h, token, boundary);
      }
    case Lift(token) =>
      if Holds(h, token) {
        SoundDeliver(h, LiftHub(h, token));
      }
    case Close => SoundDeliver(h, CloseHub(h));
  }

  lemma {:induction false} SameWithheld(h: Hub, h': Hub, e: Envelope)
    requires h'.gate == h.gate
    ensures Overtakes(h', e) == Overtakes(h, e)
  {
  }

  lemma {:induction false} SoundBeside(h: Hub, h': Hub)
    requires Sound(h) && h'.published == h.published && h'.delivered == h.delivered && Withheld(h') == Withheld(h)
    requires h.stateSequence <= h'.stateSequence
    ensures Sound(h')
  {
    hide Scope, Rising;
    forall run
      ensures InOrder(h', run)
    {
      assert InOrder(h, run);
    }
  }

  lemma {:induction false} SoundDeliver(h: Hub, h': Hub)
    requires Sound(h) && h'.published == h.published && h'.delivered == h.delivered + Withheld(h)
    requires h'.gate.None? && h'.stateSequence == h.stateSequence
    ensures Sound(h')
  {
    hide Scope, Rising;
    forall run
      ensures InOrder(h', run)
    {
      InOrderDeliver(h, h', run);
    }
  }

  lemma {:induction false} SoundRelease(h: Hub, token: nat, boundary: nat)
    requires Sound(h) && Holds(h, token)
    ensures Sound(ReleaseHub(h, token, boundary))
  {
    hide Scope, Rising, SequencesAfterAll;
    forall run
      ensures InOrder(ReleaseHub(h, token, boundary), run)
    {
      InOrderRelease(h, token, boundary, run);
    }
  }

  lemma {:induction false} NewSound()
    ensures Sound(NEW)
  {
  }

  /** Each run's publications are numbered upward. */
  ghost predicate HistoryNumbered(steps: seq<Step>) {
    forall n | 0 <= n < |steps| :: StepNumbered(After(steps[..n]), steps[n])
  }

  predicate NeverOvertakes(steps: seq<Step>) {
    forall n | 0 <= n < |steps| :: !StepOvertakes(After(steps[..n]), steps[n])
  }

  lemma {:induction false} AfterNext(steps: seq<Step>, n: nat)
    requires n < |steps|
    ensures After(steps[..n + 1]) == Apply(After(steps[..n]), steps[n])
  {
    assert steps[..n + 1][..n] == steps[..n];
  }

  lemma {:induction false} SoundUpto(steps: seq<Step>, n: nat)
    requires HistoryNumbered(steps) && n <= |steps|
    requires forall m | 0 <= m < n :: !StepOvertakes(After(steps[..m]), steps[m])
    ensures Sound(After(steps[..n]))
    decreases n
  {
    hide Sound, StepOvertakes, StepNumbered, Apply;
    if n == 0 {
      NewSound();
    } else {
      SoundUpto(steps, n - 1);
      AfterNext(steps, n - 1);
      SoundStep(After(steps[..n - 1]), steps[n - 1]);
    }
  }

  lemma {:induction false} FirstOvertaking(steps: seq<Step>, n: nat)
    requires HistoryNumbered(steps) && n < |steps| && StepOvertakes(After(steps[..n]), steps[n])
    ensures exists m :: 0 <= m <= |steps| && !AllInOrder(After(steps[..m]))
    decreases n
  {
    hide StepOvertakes, StepNumbered, Apply, AllInOrder;
    if m :| 0 <= m < n && StepOvertakes(After(steps[..m]), steps[m]) {
      FirstOvertaking(steps, m);
    } else {
      SoundUpto(steps, n);
      AfterNext(steps, n);
      SoundStep(After(steps[..n]), steps[n]);
    }
  }

  lemma {:induction false} SoundOrdered(h: Hub)
    requires Sound(h)
    ensures AllInOrder(h)
  {
    hide AllInOrder;
  }

  /** Over every history whose runs are numbered: after every prefix, what was delivered of a run,
      then what is withheld of it, is what was published of it, in order, if and only if no
      envelope was let through while one of its own run was withheld. */
  lemma {:induction false} EveryHistoryInOrder(steps: seq<Step>)
    requires HistoryNumbered(steps)
    ensures (forall n | 0 <= n <= |steps| :: AllInOrder(After(steps[..n]))) <==> NeverOvertakes(steps)
  {
    hide StepOvertakes, HistoryNumbered, AllInOrder, After, Sound;
    if NeverOvertakes(steps) {
      forall n | 0 <= n <= |steps|
        ensures AllInOrder(After(steps[..n]))
      {
        SoundUpto(steps, n);
        SoundOrdered(After(steps[..n]));
      }
    } else {
      var n :| 0 <= n < |steps| && StepOvertakes(After(steps[..n]), steps[n]);
      FirstOvertaking(steps, n);
    }
  }

  /** With no gate in place and the order kept, everything published of a run was delivered. */
  lemma {:induction false} OpenDeliversAll(h: Hub, run: nat)
    requires AllInOrder(h) && h.gate.None?
    ensures Scope(h.delivered, run) == Scope(h.published, run)
  {
    hide Scope;
    assert InOrder(h, run);
    ScopeNone([], run);
  }

  // ------------------------------------------------------------ settlements of covered runs

  /** What the gate withholds belongs to what it covers. */
  ghost predicate Covered(h: Hub) {
    h.gate.Some? ==>
      && 0 !in h.gate.value.runs
      && forall e | e in h.gate.value.withheld :: e.run in h.gate.value.runs || (h.gate.value.task && e.run == 0)
  }

  /** A settlement of the gated request belongs to a run the gate covers. */
  predicate StepSettles(h: Hub, s: Step) {
    s.Publish? && h.gate.Some? && h.gate.value.request != 0 && s.envelope.settles == h.gate.value.request ==>
      s.envelope.run in h.gate.value.runs
  }

  /** An envelope the gate lets through belongs to no run it withholds. */
  lemma {:induction false} NotWithheld(h: Hub, e: Envelope)
    requires Covered(h)
    ensures !Overtakes(h, e)
  {
    if !(h.gate.Some? && Withholds(h.gate.value, e)) {
      if h.gate.Some? {
        NotCovered(h.gate.value, e);
      }
      ScopeNone(Withheld(h), e.run);
    }
  }

  lemma {:induction false} CoveredStep(h: Hub, s: Step)
    requires Covered(h) && StepSettles(h, s)
    ensures Covered(Apply(h, s)) && !StepOvertakes(h, s)
  {
    hide SequencesAfterAll, Scope, Within, Beyond, Overtakes;
    match s
    case Arm(_, _, _) =>
    case Retarget(_, _) =>
    case Publish(e) => NotWithheld(h, e);
    case PublishState(id) => NotWithheld(h, StateEvent(h, id));
    case Release(token, boundary) => BeyondMembers(Withheld(h), boundary);
    case Lift(_) =>
    case Close =>
  }

  lemma {:induction false} CoveredUpto(steps: seq<Step>, n: nat)
    requires n <= |steps| && forall m | 0 <= m < |steps| :: StepSettles(After(steps[..m]), steps[m])
    ensures Covered(After(steps[..n]))
    decreases n
  {
    hide StepSettles, Covered, Apply;
    if n > 0 {
      CoveredUpto(steps, n - 1);
      AfterNext(steps, n - 1);
      CoveredStep(After(steps[..n - 1]), steps[n - 1]);
    } else {
      NewCovered();
    }
  }

  lemma {:induction false} NewCovered()
    ensures Covered(NEW)
  {
  }

  /** While every settlement of a gated request belongs to a run its gate covers, nothing overtakes. */
  lemma {:induction false} SettlementsKeepOrder(steps: seq<Step>)
    requires forall n | 0 <= n < |steps| :: StepSettles(After(steps[..n]), steps[n])
    ensures NeverOvertakes(steps)
  {
    hide StepSettles, Covered, After, StepOvertakes;
    forall n | 0 <= n < |steps|
      ensures !StepOvertakes(After(steps[..n]), steps[n])
    {
      CoveredUpto(steps, n);
      CoveredStep(After(steps[..n]), steps[n]);
    }
  }

  // ------------------------------------------------------------ nothing past the boundary

  /** Since a run was covered by the gate in place, every envelope of it delivered was released
      at or below a boundary. */
  ghost predicate Guarded(h: Hub) {
    h.gate.Some? ==>
      forall run | run in h.gate.value.runs ::
        && run in h.coveredAt && h.coveredAt[run] <= |h.delivered|
        && forall i | h.coveredAt[run] <= i < |h.delivered| && h.delivered[i].run == run ::
             exists b :: b in h.released && AtMost(h.delivered[i], b)
  }

  lemma {:induction false} GuardedPublish(h: Hub, e: Envelope)
    requires Guarded(h)
    ensures Guarded(PublishHub(h, e))
  {
    hide SequencesAfterAll;
    if h.gate.Some? && !Withholds(h.gate.value, e) {
      assert e.run !in h.gate.value.runs by {
        NotCovered(h.gate.value, e);
      }
    }
  }

  lemma {:induction false} NotCovered(g: Gate, e: Envelope)
    requires !Withholds(g, e)
    ensures e.run !in g.runs
  {
    assert forall i | 0 <= i < |g.runs| :: g.runs[i] != e.run;
  }

  lemma {:induction false} GuardedRelease(h: Hub, token: nat, boundary: nat)
    requires Guarded(h) && Holds(h, token)
    ensures Guarded(ReleaseHub(h, token, boundary))
  {
    hide SequencesAfterAll, Within, Beyond;
    var w, h' := h.gate.value.withheld, ReleaseHub(h, token, boundary);
    WithinMembers(w, boundary);
    forall run, i | run in h.gate.value.runs && h.coveredAt[run] <= i < |h'.delivered| && h'.delivered[i].run == run
      ensures exists b :: b in h'.released && AtMost(h'.delivered[i], b)
    {
      if i < |h.delivered| {
        assert h'.delivered[i] == h.delivered[i];
        var b :| b in h.released && AtMost(h.delivered[i], b);
        assert b in h'.released;
      } else {
        assert h'.delivered[i] in Within(w, boundary);
        assert boundary in h'.released;
      }
    }
  }

  lemma {:induction false} GuardedStep(h: Hub, s: Step)
    requires Guarded(h)
    ensures Guarded(Apply(h, s))
  {
    hide Withholds, SequencesAfterAll, Within, Beyond, PublishHub, ReleaseHub;
    match s
    case Arm(_, _, _) =>
    case Retarget(_, _) =>
    case Publish(e) => GuardedPublish(h, e);
    case PublishState(id) =>
      if !h.closed {
        GuardedPublish(h.(stateSequence := h.stateSequence + 1), StateEvent(h, id));
      }
    case Release(token, boundary) =>
      if Holds(h, token) {
        GuardedRelease(h, token, boundary);
      } else {
        assert ReleaseHub(h, token, boundary) == h by {
          ReleaseIdle(h, token, boundary);
        }
      }
    case Lift(_) =>
    case Close =>
  }

  lemma {:induction false} ReleaseIdle(h: Hub, token: nat, boundary: nat)
    requires !Holds(h, token)
    ensures ReleaseHub(h, token, boundary) == h
  {
  }

  /** Over every history: from the moment a run is covered until the gate is gone, only envelopes
      released at or below a boundary are delivered of it. */
  lemma {:induction false} EveryHistoryGuarded(steps: seq<Step>)
    ensures Guarded(After(steps))
  {
    if steps != [] {
      EveryHistoryGuarded(steps[..|steps| - 1]);
      GuardedStep(After(steps[..|steps| - 1]), steps[|steps| - 1]);
    }
  }

  /** A settlement of the gated request that belongs to a run the gate does not cover is
      overtaken by that run's next envelope. */
  lemma {:induction false} StraySettlementOvertaken()
    ensures var early, late := Envelope(1, 2, Some(1), 9), Envelope(2, 2, Some(2), 0);
      var h := After([Arm(1, false, 9), Publish(early), Publish(late), Lift(0)]);
      h.published == [early, late] && h.delivered == [late, early]
  {
    var early, late := Envelope(1, 2, Some(1), 9), Envelope(2, 2, Some(2), 0);
    var steps := [Arm(1, false, 9), Publish(early), Publish(late), Lift(0)];
    assert steps[..3] == [Arm(1, false, 9), Publish(early), Publish(late)];
    assert steps[..3][..2] == [Arm(1, false, 9), Publish(early)];
    assert steps[..3][..2][..1] == [Arm(1, false, 9)];
    assert steps[..3][..2][..1][..0] == [];
    var h1 := After([Arm(1, false, 9)]);
    assert h1 == Apply(NEW, Arm(1, false, 9));
    var h2 := After([Arm(1, false, 9), Publish(early)]);
    assert h2 == Apply(h1, Publish(early));
    assert h2.gate.value.withheld == [early] && h2.delivered == [];
    var h3 := After(steps[..3]);
    assert h3 == Apply(h2, Publish(late));
    assert !Withholds(h2.gate.value, late);
    assert h3.delivered == [late];
  }

  // ------------------------------------------------------------ the position a gate is armed at

  /** The highest sequence of a run among some envelopes, or 0. */
  function Highest(es: seq<Envelope>, run: nat): nat {
    if es == [] then 0
    else
      var e, front := es[|es| - 1], Highest(es[..|es| - 1], run);
      if e.run == run && e.sequence.Some? && e.sequence.value > front then e.sequence.value else front
  }

  ghost predicate Positioned(h: Hub) {
    forall run | run != 0 :: SequenceOf(h, run) == Highest(h.delivered, run)
  }

  lemma {:induction false} DeliveringPositioned(h: Hub, es: seq<Envelope>)
    requires Positioned(h)
    ensures Positioned(Delivering(h, es))
    decreases |es|
  {
    if es == [] {
      assert h.delivered + [] == h.delivered;
    } else {
      var front, e := es[..|es| - 1], es[|es| - 1];
      DeliveringPositioned(h, front);
      var m, h' := Delivering(h, front), Delivering(h, es);
      assert h'.delivered == m.delivered + [e];
      forall run | run != 0
        ensures SequenceOf(h', run) == Highest(h'.delivered, run)
      {
        assert SequenceOf(m, run) == Highest(m.delivered, run);
        assert h'.delivered[..|m.delivered|] == m.delivered;
      }
    }
  }

  lemma {:induction false} PositionedStep(h: Hub, s: Step)
    requires Positioned(h)
    ensures Positioned(Apply(h, s))
  {
    hide Withholds, Within, Beyond, SequencesAfterAll, Highest;
    match s
    case Publish(e) => DeliveringPositioned(h.(published := h.published + [e]), [e]);
    case PublishState(id) =>
      DeliveringPositioned(h.(stateSequence := h.stateSequence + 1, published := h.published + [StateEvent(h, id)]), [StateEvent(h, id)]);
    case Release(token, boundary) =>
      if Holds(h, token) {
        var g := h.gate.value;
        DeliveringPositioned(
          h.(gate := Some(g.(withheld := Beyond(g.withheld, boundary), boundary := boundary)), released := h.released + {boundary}),
          Within(g.withheld, boundary));
      }
    case Lift(_) => DeliveringPositioned(h.(gate := None), Withheld(h));
    case Close => DeliveringPositioned(h.(closed := true, gate := None), Withheld(h));
    case _ =>
  }

  /** Over every history, the boundary a gate is armed at is the highest sequence delivered of its run. */
  lemma {:induction false} EveryHistoryPositioned(steps: seq<Step>)
    ensures Positioned(After(steps))
    ensures forall run, task, request | run != 0 && After(steps).gate.None? && !After(steps).closed ::
      var g := ArmHub(After(steps), run, task, request).gate;
      g.Some? && g.value.boundary == Highest(After(steps).delivered, run)
  {
    if steps != [] {
      EveryHistoryPositioned(steps[..|steps| - 1]);
      PositionedStep(After(steps[..|steps| - 1]), steps[|steps| - 1]);
    }
  }

  // ------------------------------------------------------------ the session object

  class GatedSession {
    var closed: bool
    var gate: Option<Gate>
    var tokens: nat
    var sequences: map<nat, nat>
    var stateSequence: nat
    ghost var published: seq<Envelope>
    ghost var delivered: seq<Envelope>
    ghost var coveredAt: map<nat, nat>
    ghost var released: set<nat>

    ghost function View(): Hub
      reads this
    {
      Hub(closed, gate, tokens, sequences, stateSequence, published, delivered, coveredAt, released)
    }

    constructor ()
      ensures View() == NEW
    {
      closed, gate, tokens, sequences, stateSequence := false, None, 0, map[], 0;
      published, delivered, coveredAt, released := [], [], map[], {};
    }

    /** The gate put in place; none while another is in place, which the caller waits out, or
        once the session is closed. */
    method ArmGate(run: nat, task: bool, request: nat) returns (armed: bool)
      modifies this
      ensures View() == ArmHub(old(View()), run, task, request)
      ensures armed <==> old(gate).None? && !old(closed)
    {
      if gate.Some? || closed {
        return false;
      }
      var boundary := if run in sequences then sequences[run] else 0;
      var runs: seq<nat> := [];
      if run != 0 {
        runs := [run];
      }
      gate := Some(Gate(tokens, runs, task, request, boundary, []));
      coveredAt, released := if run == 0 then map[] else map[run := |delivered|], {};
      tokens := tokens + 1;
      return true;
    }

    method RetargetGate(token: nat, run: nat)
      modifies this
      ensures View() == RetargetHub(old(View()), token, run)
    {
      if run == 0 || gate.None? || gate.value.token != token {
        return;
      }
      var runs := gate.value.runs;
      for i := 0 to |runs|
        invariant run !in runs[..i] && View() == old(View())
      {
        if runs[i] == run {
          return;
        }
      }
      assert runs[..|runs|] == runs;
      gate := Some(gate.value.(runs := runs + [run]));
      coveredAt := coveredAt[run := |delivered|];
    }

    method IsWithheld(e: Envelope) returns (withheld: bool)
      ensures withheld <==> gate.Some? && Withholds(gate.value, e)
    {
      if gate.None? {
        return false;
      }
      var g := gate.value;
      if g.task && e.run == 0 {
        return true;
      }
      for i := 0 to |g.runs|
        invariant forall j | 0 <= j < i :: g.runs[j] != e.run
      {
        if g.runs[i] == e.run {
          return true;
        }
      }
      return g.request != 0 && e.settles == g.request;
    }

    method Deliver(e: Envelope)
      modifies this`sequences, this`delivered
      ensures sequences == SequencesAfter(old(sequences), e) && delivered == old(delivered) + [e]
    {
      if e.run != 0 && e.sequence.Some? && e.sequence.value > (if e.run in sequences then sequences[e.run] else 0) {
        sequences := sequences[e.run := e.sequence.value];
      }
      delivered := delivered + [e];
    }

    method DeliverAll(es: seq<Envelope>)
      modifies this`sequences, this`delivered
      ensures sequences == SequencesAfterAll(old(sequences), es) && delivered == old(delivered) + es
    {
      for i := 0 to |es|
        invariant sequences == SequencesAfterAll(old(sequences), es[..i]) && delivered == old(delivered) + es[..i]
      {
        assert es[..i + 1][..i] == es[..i];
        Deliver(es[i]);
      }
      assert es[..|es|] == es;
    }

    /** An envelope of a run, read from its stream or drained from it. */
    method Publish(e: Envelope)
      modifies this
      ensures View() == PublishHub(old(View()), e)
    {
      published := published + [e];
      var withheld := IsWithheld(e);
      if withheld {
        gate := Some(gate.value.(withheld := gate.value.withheld + [e]));
        return;
      }
      DeliverAll([e]);
    }

    method PublishSessionEvent(id: nat) returns (refused: bool)
      modifies this
      ensures View() == PublishStateHub(old(View()), id) && refused == old(closed)
    {
      if closed {
        return true;
      }
      stateSequence := stateSequence + 1;
      Publish(Envelope(id, 0, Some(stateSequence), 0));
      return false;
    }

    method ReleaseToBoundary(token: nat, boundary: nat)
      modifies this
      ensures View() == ReleaseHub(old(View()), token, boundary)
    {
      if gate.None? || gate.value.token != token {
        return;
      }
      var prefix, rest := Split(gate.value.withheld, boundary);
      gate := Some(gate.value.(withheld := rest, boundary := boundary));
      released := released + {boundary};
      DeliverAll(prefix);
    }

    /** The gate lifted: by the request that armed it, by its deadline, or by a publication of
        the answer it waits for. A gate that is no longer in place is left alone. */
    method LiftGate(token: nat)
      modifies this
      ensures View() == LiftHub(old(View()), token)
    {
      if gate.None? || gate.value.token != token {
        return;
      }
      var withheld := gate.value.withheld;
      gate := None;
      DeliverAll(withheld);
    }

    method MarkClosed()
      modifies this
      ensures View() == CloseHub(old(View()))
    {
      closed := true;
      var withheld: seq<Envelope> := [];
      if gate.Some? {
        withheld := gate.value.withheld;
        gate := None;
      }
      DeliverAll(withheld);
    }
  }

  method Split(es: seq<Envelope>, boundary: nat) returns (prefix: seq<Envelope>, rest: seq<Envelope>)
    ensures prefix == Within(es, boundary) && rest == Beyond(es, boundary)
  {
    prefix, rest := [], [];
    for i := 0 to |es|
      invariant prefix == Within(es[..i], boundary) && rest == Beyond(es[..i], boundary)
    {
      assert es[..i + 1][..i] == es[..i];
      if es[i].sequence.Some? && es[i].sequence.value <= boundary {
        prefix := prefix + [es[i]];
        continue;
      }
      rest := rest + [es[i]];
    }
    assert es[..|es|] == es;
  }
}
