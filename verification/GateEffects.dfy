/** What each step of a gate does to the envelopes, one by one: which are withheld, which are let go
    and in what order, and over a whole history which are still withheld. */
module GateEffects {
  import opened Basics
  import opened HubGate

  predicate Low(e: Envelope, boundary: nat) {
    e.sequence.Some? && e.sequence.value <= boundary
  }

  predicate Ascending(ks: seq<nat>, n: nat) {
    && (forall i | 0 <= i < |ks| :: ks[i] < n)
    && forall i, j | 0 <= i < j < |ks| :: ks[i] < ks[j]
  }

  /** Some elements of a sequence, in its order. */
  predicate Picked(es: seq<Envelope>, ks: seq<nat>, picked: seq<Envelope>) {
    Ascending(ks, |es|) && |picked| == |ks| && forall i | 0 <= i < |ks| :: picked[i] == es[ks[i]]
  }

  /** The envelopes at or below a boundary are let go and the others kept, each in their order. */
  ghost predicate Parted(es: seq<Envelope>, boundary: nat, gone: seq<Envelope>, kept: seq<Envelope>) {
    exists ks, ls :: Picked(es, ks, gone) && Picked(es, ls, kept) && Told(es, boundary, ks, ls)
  }

  ghost predicate Told(es: seq<Envelope>, boundary: nat, ks: seq<nat>, ls: seq<nat>) {
    forall i | 0 <= i < |es| :: (i in ks <==> Low(es[i], boundary)) && (i in ls <==> !Low(es[i], boundary))
  }

  predicate InPlace(h: Hub, token: nat) {
    h.gate.Some? && h.gate.value.token == token
  }

  /** A gate withholds the session's own envelopes when it covers a task, the envelopes of the runs it
      covers, and those that settle its request. */
  predicate Covers(g: Gate, e: Envelope) {
    (g.task && e.run == 0) || e.run in g.runs || (g.request != 0 && e.settles == g.request)
  }

  // ------------------------------------------------------------ single steps

  lemma {:induction false} PickedSnoc(es: seq<Envelope>, e: Envelope, ks: seq<nat>, picked: seq<Envelope>)
    requires Picked(es, ks, picked)
    ensures Picked(es + [e], ks, picked) && Picked(es + [e], ks + [|es|], picked + [e])
  {
  }

  lemma {:induction false} Parts(es: seq<Envelope>, boundary: nat)
    ensures Parted(es, boundary, Within(es, boundary), Beyond(es, boundary))
    decreases |es|
  {
    hide Within, Beyond, Told, Low;
    if es == [] {
      NonePicked(boundary);
      var none: seq<nat> := [];
      assert Picked(es, none, Within(es, boundary)) && Picked(es, none, Beyond(es, boundary)) && Told(es, boundary, none, none);
    } else {
      var front, e := es[..|es| - 1], es[|es| - 1];
      Parts(front, boundary);
      var ks: seq<nat>, ls: seq<nat> :| Picked(front, ks, Within(front, boundary)) && Picked(front, ls, Beyond(front, boundary))
                    && Told(front, boundary, ks, ls);
      assert es == front + [e];
      SplitSnoc(front, e, boundary);
      PickedSnoc(front, e, ks, Within(front, boundary));
      PickedSnoc(front, e, ls, Beyond(front, boundary));
      TellOne(front, e, boundary, ks, ls);
      LowIs(e, boundary);
      if AtMost(e, boundary) {
        assert Told(es, boundary, ks + [|front|], ls);
      } else {
        assert Told(es, boundary, ks, ls + [|front|]);
      }
    }
  }

  lemma {:induction false} LowIs(e: Envelope, boundary: nat)
    ensures Low(e, boundary) == AtMost(e, boundary)
  {
  }

  lemma {:induction false} NonePicked(boundary: nat)
    ensures Picked([], [], Within([], boundary)) && Picked([], [], Beyond([], boundary)) && Told([], boundary, [], [])
  {
  }

  lemma {:induction false} TellOne(front: seq<Envelope>, e: Envelope, boundary: nat, ks: seq<nat>, ls: seq<nat>)
    requires Told(front, boundary, ks, ls) && Ascending(ks, |front|) && Ascending(ls, |front|)
    ensures if Low(e, boundary) then Told(front + [e], boundary, ks + [|front|], ls)
            else Told(front + [e], boundary, ks, ls + [|front|])
  {
    var n := |front|;
    assert n !in ks && n !in ls;
  }

  /** A release by the gate in place lets go exactly the withheld envelopes at or below the boundary,
      in their order, keeps the others withheld in theirs, and sets the boundary; any other release
      does nothing. */
  lemma {:induction false} ReleaseLetsGo(h: Hub, token: nat, boundary: nat)
    ensures var h' := Apply(h, Release(token, boundary));
      if !InPlace(h, token) then h' == h
      else
        && h'.gate == Some(h.gate.value.(withheld := Withheld(h'), boundary := boundary))
        && h.delivered <= h'.delivered
        && Parted(h.gate.value.withheld, boundary, h'.delivered[|h.delivered|..], Withheld(h'))
        && h'.published == h.published && h'.closed == h.closed
  {
    hide SequencesAfterAll;
    if InPlace(h, token) {
      Parts(h.gate.value.withheld, boundary);
    }
  }

  /** An envelope published is withheld by the gate in place if it is covered, and delivered otherwise. */
  lemma {:induction false} PublishWithholds(h: Hub, e: Envelope)
    ensures var h' := Apply(h, Publish(e));
      if h.gate.Some? && Covers(h.gate.value, e) then
        h'.delivered == h.delivered && h'.gate == Some(h.gate.value.(withheld := h.gate.value.withheld + [e]))
      else h'.delivered == h.delivered + [e] && h'.gate == h.gate
  {
    hide SequencesAfterAll;
    if h.gate.Some? {
      var g := h.gate.value;
      if e.run in g.runs {
        var i :| 0 <= i < |g.runs| && g.runs[i] == e.run;
      }
    }
  }

  /** A state event of an open session takes the sequence after the last one's and is published. */
  lemma {:induction false} StatePublished(h: Hub, id: nat)
    ensures var h' := Apply(h, PublishState(id));
      if h.closed then h' == h
      else
        h' == Apply(h.(stateSequence := h.stateSequence + 1), Publish(Envelope(id, 0, Some(h.stateSequence + 1), 0)))
        && h'.stateSequence == h.stateSequence + 1
  {
    hide SequencesAfterAll, Withholds;
  }

  /** Lifting the gate in place delivers what it withheld, in order; so does closing, whatever gate. */
  lemma {:induction false} LiftLetsGo(h: Hub, token: nat)
    ensures var h' := Apply(h, Lift(token));
      if !InPlace(h, token) then h' == h
      else h'.gate.None? && h'.delivered == h.delivered + h.gate.value.withheld && h'.closed == h.closed
    ensures var h' := Apply(h, Close);
      h'.closed && h'.gate.None? && h'.delivered == h.delivered + if h.gate.Some? then h.gate.value.withheld else []
  {
    hide SequencesAfterAll;
  }

  /** Arming puts a gate in place, of its own, over the run named, the task and the request, with
      nothing withheld yet, unless one is in place or the session is closed. */
  lemma {:induction false} ArmPutsInPlace(h: Hub, run: nat, task: bool, request: nat)
    ensures var h' := Apply(h, Arm(run, task, request));
      if h.gate.Some? || h.closed then h' == h
      else
        && h'.gate.Some? && h'.gate.value.withheld == [] && h'.gate.value.task == task && h'.gate.value.request == request
        && (forall r :: r in h'.gate.value.runs <==> r == run != 0)
        && h'.delivered == h.delivered && h'.tokens > h'.gate.value.token >= h.tokens
  {
  }

  /** Retargeting the gate in place covers the run too, once, and uncovers none. */
  lemma {:induction false} RetargetCovers(h: Hub, token: nat, run: nat)
    ensures var h' := Apply(h, Retarget(token, run));
      if !InPlace(h, token) || run == 0 then h' == h
      else
        && h'.gate == Some(h.gate.value.(runs := h'.gate.value.runs))
        && (forall r :: r in h'.gate.value.runs <==> r in h.gate.value.runs || r == run)
        && multiset(h'.gate.value.runs)[run] == (if run in h.gate.value.runs then multiset(h.gate.value.runs)[run] else 1)
        && h'.delivered == h.delivered
  {
  }

  // ------------------------------------------------------------ whole histories

  /** What a step publishes, if anything. */
  ghost function PublishedBy(steps: seq<Step>, i: nat): Option<Envelope>
    requires i < |steps|
  {
    match steps[i]
    case Publish(e) => Some(e)
    case PublishState(id) =>
      var h := After(steps[..i]);
      if h.closed then None else Some(Envelope(id, 0, Some(h.stateSequence + 1), 0))
    case _ => None
  }

  /** A step that lets an envelope withheld in a hub go: a release by the gate in place to its sequence
      or past it, the gate's lifting, or the closing. */
  predicate LetsGo(h: Hub, s: Step, e: Envelope) {
    match s
    case Release(token, boundary) => InPlace(h, token) && Low(e, boundary)
    case Lift(token) => InPlace(h, token)
    case Close => true
    case _ => false
  }

  predicate KeepsAll(h: Hub, s: Step) {
    match s
    case Release(token, _) => !InPlace(h, token)
    case Lift(token) => !InPlace(h, token)
    case Close => false
    case _ => true
  }

  /** A step's envelope was covered by the gate then in place, and no later step has let it go. */
  ghost predicate Held(steps: seq<Step>, i: nat)
    requires i < |steps|
  {
    var o, h := PublishedBy(steps, i), After(steps[..i]);
    && o.Some? && h.gate.Some? && Covers(h.gate.value, o.value)
    && forall j | i < j < |steps| :: !LetsGo(After(steps[..j]), steps[j], o.value)
  }

  /** The steps whose envelopes are withheld, in order. */
  ghost predicate Holding(steps: seq<Step>, ks: seq<nat>, withheld: seq<Envelope>) {
    && Ascending(ks, |steps|) && |withheld| == |ks|
    && (forall i | 0 <= i < |steps| :: i in ks <==> Held(steps, i))
    && forall j | 0 <= j < |ks| :: PublishedBy(steps, ks[j]) == Some(withheld[j])
  }

  lemma {:induction false} PublishedFront(steps: seq<Step>, i: nat)
    requires i < |steps| - 1
    ensures PublishedBy(steps[..|steps| - 1], i) == PublishedBy(steps, i)
  {
    assert steps[..|steps| - 1][..i] == steps[..i];
  }

  lemma {:induction false} HeldFront(steps: seq<Step>, i: nat)
    requires i < |steps| - 1
    ensures var front := steps[..|steps| - 1];
      Held(steps, i) <==> Held(front, i) && !LetsGo(After(front), steps[|steps| - 1], PublishedBy(front, i).value)
  {
    hide After, LetsGo, Covers;
    var front := steps[..|steps| - 1];
    PublishedFront(steps, i);
    assert forall j | 0 <= j < |front| :: front[..j] == steps[..j] && front[j] == steps[j];
    assert steps[..|front|] == front;
  }

  lemma {:induction false} HeldLast(steps: seq<Step>)
    requires steps != []
    ensures var n := |steps| - 1; var h := After(steps[..n]);
      Held(steps, n) <==> PublishedBy(steps, n).Some? && h.gate.Some? && Covers(h.gate.value, PublishedBy(steps, n).value)
  {
    hide After, LetsGo, Covers, PublishedBy;
  }

  lemma {:induction false} KeepsEach(h: Hub, s: Step, o: Option<Envelope>)
    requires KeepsAll(h, s)
    ensures o.Some? ==> !LetsGo(h, s, o.value)
  {
  }

  /** A step that lets nothing go, and publishes an envelope that is withheld, or none. */
  lemma {:induction false} HoldingOn(steps: seq<Step>, ks: seq<nat>, withheld: seq<Envelope>)
    requires steps != [] && Holding(steps[..|steps| - 1], ks, withheld)
    requires KeepsAll(After(steps[..|steps| - 1]), steps[|steps| - 1])
    ensures var n := |steps| - 1;
      if Held(steps, n) then PublishedBy(steps, n).Some? && Holding(steps, ks + [n], withheld + [PublishedBy(steps, n).value])
      else Holding(steps, ks, withheld)
  {
    hide After, LetsGo, Covers, PublishedBy, Held;
    var n := |steps| - 1;
    HeldLast(steps);
    forall i | 0 <= i < n
      ensures Held(steps, i) <==> Held(steps[..n], i)
      ensures PublishedBy(steps[..n], i) == PublishedBy(steps, i)
    {
      HeldFront(steps, i);
      PublishedFront(steps, i);
      KeepsEach(After(steps[..n]), steps[n], PublishedBy(steps[..n], i));
    }
    assert forall j | 0 <= j < |ks| :: PublishedBy(steps, ks[j]) == Some(withheld[j]);
  }

  /** A step that publishes nothing and lets some go. */
  lemma {:induction false} HoldingLess(steps: seq<Step>, ks: seq<nat>, withheld: seq<Envelope>, ls: seq<nat>, left: seq<Envelope>)
    requires steps != [] && Holding(steps[..|steps| - 1], ks, withheld) && !Held(steps, |steps| - 1)
    requires Picked(withheld, ls, left)
    requires forall i | 0 <= i < |withheld| ::
      i in ls <==> !LetsGo(After(steps[..|steps| - 1]), steps[|steps| - 1], withheld[i])
    ensures exists ks' :: Holding(steps, ks', left)
  {
    hide After, LetsGo, Covers, PublishedBy, Held;
    var n := |steps| - 1;
    var ks' := seq(|ls|, j requires 0 <= j < |ls| => ks[ls[j]]);
    forall i | 0 <= i < n
      ensures i in ks' <==> Held(steps, i)
    {
      HeldFront(steps, i);
      if i in ks {
        var j :| 0 <= j < |ks| && ks[j] == i;
        assert PublishedBy(steps[..n], ks[j]) == Some(withheld[j]);
        if j in ls {
          var l :| 0 <= l < |ls| && ls[l] == j;
          assert ks'[l] == i;
        }
      }
    }
    forall j | 0 <= j < |ks'|
      ensures PublishedBy(steps, ks'[j]) == Some(left[j])
    {
      PublishedFront(steps, ks[ls[j]]);
      assert PublishedBy(steps[..n], ks[ls[j]]) == Some(withheld[ls[j]]);
    }
    assert Holding(steps, ks', left);
  }

  lemma {:induction false} HoldingReleased(steps: seq<Step>, ks: seq<nat>, token: nat, boundary: nat)
    requires steps != [] && steps[|steps| - 1] == Release(token, boundary)
    requires var h := After(steps[..|steps| - 1]); InPlace(h, token) && Holding(steps[..|steps| - 1], ks, Withheld(h))
    ensures exists ks' :: Holding(steps, ks', Withheld(After(steps)))
  {
    hide After, Holding, Within, Beyond, Picked, SequencesAfterAll;
    var h := After(steps[..|steps| - 1]);
    var es := Withheld(h);
    Parts(es, boundary);
    var gs: seq<nat>, ls: seq<nat> :| Picked(es, gs, Within(es, boundary)) && Picked(es, ls, Beyond(es, boundary))
                                      && Told(es, boundary, gs, ls);
    HeldLast(steps);
    AfterLast(steps);
    HoldingLess(steps, ks, es, ls, Beyond(es, boundary));
    var ks' :| Holding(steps, ks', Beyond(es, boundary));
    assert Withheld(After(steps)) == Beyond(es, boundary);
    assert Holding(steps, ks', Withheld(After(steps)));
  }

  lemma {:induction false} AfterLast(steps: seq<Step>)
    requires steps != []
    ensures After(steps) == Apply(After(steps[..|steps| - 1]), steps[|steps| - 1])
  {
    hide Apply;
  }

  /** A step that lets everything go. */
  lemma {:induction false} HoldingEmptied(steps: seq<Step>, ks: seq<nat>)
    requires steps != [] && (steps[|steps| - 1].Lift? || steps[|steps| - 1].Close?)
    requires var h := After(steps[..|steps| - 1]);
      !KeepsAll(h, steps[|steps| - 1]) && Holding(steps[..|steps| - 1], ks, Withheld(h))
    ensures exists ks' :: Holding(steps, ks', Withheld(After(steps)))
  {
    hide After, Holding, Apply;
    var h := After(steps[..|steps| - 1]);
    var none: seq<nat>, left: seq<Envelope> := [], [];
    HeldLast(steps);
    AfterLast(steps);
    GoneAll(h, steps[|steps| - 1]);
    HoldingLess(steps, ks, Withheld(h), none, left);
    var ks' :| Holding(steps, ks', left);
    assert Holding(steps, ks', Withheld(After(steps)));
  }

  lemma {:induction false} GoneAll(h: Hub, s: Step)
    requires (s.Lift? || s.Close?) && !KeepsAll(h, s)
    ensures Withheld(Apply(h, s)) == [] && forall e :: LetsGo(h, s, e)
  {
    hide SequencesAfterAll;
  }

  lemma {:induction false} HoldingKept(steps: seq<Step>, ks: seq<nat>)
    requires steps != [] && KeepsAll(After(steps[..|steps| - 1]), steps[|steps| - 1])
    requires Holding(steps[..|steps| - 1], ks, Withheld(After(steps[..|steps| - 1])))
    ensures exists ks' :: Holding(steps, ks', Withheld(After(steps)))
  {
    hide After, Holding, SequencesAfterAll, Covers, Withholds, Apply;
    var n := |steps| - 1;
    var h := After(steps[..n]);
    HoldingOn(steps, ks, Withheld(h));
    HeldLast(steps);
    AfterLast(steps);
    WithheldNext(h, steps[n], PublishedBy(steps, n));
    if Held(steps, n) {
      assert Holding(steps, ks + [n], Withheld(h) + [PublishedBy(steps, n).value]);
    } else {
      assert Holding(steps, ks, Withheld(h));
    }
  }

  /** What a step that lets nothing go leaves withheld. */
  lemma {:induction false} WithheldNext(h: Hub, s: Step, o: Option<Envelope>)
    requires KeepsAll(h, s)
    requires o == match s
      case Publish(e) => Some(e)
      case PublishState(id) => if h.closed then None else Some(Envelope(id, 0, Some(h.stateSequence + 1), 0))
      case _ => None
    ensures Withheld(Apply(h, s)) ==
      if o.Some? && h.gate.Some? && Covers(h.gate.value, o.value) then Withheld(h) + [o.value] else Withheld(h)
  {
    hide SequencesAfterAll, Covers, Withholds;
    match s {
      case Publish(e) => PublishWithholds(h, e);
      case PublishState(id) =>
        StatePublished(h, id);
        PublishWithholds(h.(stateSequence := h.stateSequence + 1), Envelope(id, 0, Some(h.stateSequence + 1), 0));
      case _ =>
    }
  }

  /** Over every history: the envelopes withheld are exactly those published while covered by the gate
      then in place that no step since has let go, in the order they were published. */
  lemma {:induction false} EveryHistoryHeld(steps: seq<Step>)
    ensures exists ks :: Holding(steps, ks, Withheld(After(steps)))
  {
    hide Holding, KeepsAll, Apply;
    if steps == [] {
      NothingHeld();
    } else {
      var front := steps[..|steps| - 1];
      EveryHistoryHeld(front);
      var ks :| Holding(front, ks, Withheld(After(front)));
      if KeepsAll(After(front), steps[|steps| - 1]) {
        HoldingKept(steps, ks);
      } else {
        LetsSome(After(front), steps[|steps| - 1]);
        match steps[|steps| - 1] {
          case Release(token, boundary) => HoldingReleased(steps, ks, token, boundary);
          case _ => HoldingEmptied(steps, ks);
        }
      }
    }
  }

  lemma {:induction false} LetsSome(h: Hub, s: Step)
    requires !KeepsAll(h, s)
    ensures s.Release? || s.Lift? || s.Close?
    ensures s.Release? ==> InPlace(h, s.token)
  {
  }

  lemma {:induction false} NothingHeld()
    ensures exists ks :: Holding([], ks, Withheld(After([])))
  {
    var none: seq<nat> := [];
    assert Holding([], none, Withheld(After([])));
  }
}
