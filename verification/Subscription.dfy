/** A subscription to a hub session: replays of the runs it resumes at, one after another, and
    then the live queue, which was attached before the replays were cut and so overlaps them. */
module Subscription {
  import opened Basics
  import G = HubGate

  type Envelope = G.Envelope

  datatype Error = OverflowError(run: nat, lastSequence: nat) | OtherError | EndOfStream

  /** A subscription, beside the serials the session has given its runs. It starts at a cursor in
      one run, or at none; later are the runs still to be replayed, handed what it has given out. */
  datatype Sub = Sub(
    serials: map<nat, nat>, issued: nat, start: nat, after: nat, firstRun: nat, oneRun: bool,
    replaying: Option<nat>, later: seq<nat>, positions: map<nat, nat>, last: nat, lastRun: nat,
    finished: bool, error: Option<Error>, handed: seq<Envelope>)

  predicate Distinct(s: seq<nat>) {
    forall i, j | 0 <= i < j < |s| :: s[i] != s[j]
  }

  /** Serials are given out one after another, to named runs. */
  predicate Issued(serials: map<nat, nat>, issued: nat) {
    && 0 !in serials
    && (forall r | r in serials :: 0 < serials[r] <= issued)
    && forall r, t | r in serials && t in serials && serials[r] == serials[t] :: r == t
  }

  function SerialIn(serials: map<nat, nat>, run: nat): nat {
    if run in serials then serials[run] else 0
  }

  // ------------------------------------------------------------ the runs to replay

  /** The runs newer than one, by serial; none when the session does not know it. */
  ghost predicate IsLater(serials: map<nat, nat>, run: nat, later: seq<nat>) {
    && (SerialIn(serials, run) == 0 ==> later == [])
    && (SerialIn(serials, run) > 0 ==> forall r :: r in later <==> r in serials && serials[r] > serials[run])
    && forall i, j | 0 <= i < j < |later| :: SerialIn(serials, later[i]) < SerialIn(serials, later[j])
  }

  predicate BySerial(serials: map<nat, nat>, s: seq<nat>) {
    forall i, j | 0 <= i < j < |s| :: SerialIn(serials, s[i]) < SerialIn(serials, s[j])
  }

  /** The serials are taken in any order and the runs sorted by them. */
  method LaterRuns(serials: map<nat, nat>, issued: nat, run: nat) returns (later: seq<nat>)
    requires Issued(serials, issued)
    ensures IsLater(serials, run, later)
  {
    later := [];
    var first := if run in serials then serials[run] else 0;
    if first == 0 {
      return;
    }
    var todo := serials.Keys;
    while todo != {}
      invariant todo <= serials.Keys && BySerial(serials, later)
      invariant forall r :: r in later <==> r in serials && r !in todo && serials[r] > first
      decreases |todo|
    {
      var r :| r in todo;
      todo := todo - {r};
      if serials[r] > first {
        later := InsertRun(serials, issued, later, r);
      }
    }
  }

  method InsertRun(serials: map<nat, nat>, issued: nat, s: seq<nat>, run: nat) returns (t: seq<nat>)
    requires Issued(serials, issued) && BySerial(serials, s) && run in serials && run !in s && forall r | r in s :: r in serials
    ensures BySerial(serials, t) && forall r :: r in t <==> r in s || r == run
  {
    var i := |s|;
    while i > 0 && SerialIn(serials, s[i - 1]) > SerialIn(serials, run)
      invariant 0 <= i <= |s|
      invariant forall j | i <= j < |s| :: SerialIn(serials, s[j]) > SerialIn(serials, run)
    {
      i := i - 1;
    }
    t := s[..i] + [run] + s[i..];
    if i > 0 {
      assert s[i - 1] in s;
      SerialsApart(serials, issued, s[i - 1], run);
    }
    InsertedBySerial(serials, s, run, i);
  }

  lemma {:induction false} SerialsApart(serials: map<nat, nat>, issued: nat, a: nat, b: nat)
    requires Issued(serials, issued) && a in serials && b in serials && a != b
    ensures SerialIn(serials, a) != SerialIn(serials, b)
  {
  }

  lemma {:induction false} InsertedBySerial(serials: map<nat, nat>, s: seq<nat>, run: nat, i: nat)
    requires i <= |s| && BySerial(serials, s)
    requires i > 0 ==> SerialIn(serials, s[i - 1]) < SerialIn(serials, run)
    requires forall j | i <= j < |s| :: SerialIn(serials, s[j]) > SerialIn(serials, run)
    ensures var t := s[..i] + [run] + s[i..]; BySerial(serials, t) && forall r :: r in t <==> r in s || r == run
  {
    hide SerialIn;
    var t := s[..i] + [run] + s[i..];
    assert s == s[..i] + s[i..];
    forall j, k | 0 <= j < k < |t|
      ensures SerialIn(serials, t[j]) < SerialIn(serials, t[k])
    {
      InsertedPair(serials, s, run, i, j, k);
    }
  }

  lemma {:induction false} InsertedPair(serials: map<nat, nat>, s: seq<nat>, run: nat, i: nat, j: nat, k: nat)
    requires i <= |s| && BySerial(serials, s) && j < k <= |s|
    requires i > 0 ==> SerialIn(serials, s[i - 1]) < SerialIn(serials, run)
    requires i < |s| ==> SerialIn(serials, s[i]) > SerialIn(serials, run)
    ensures var t := s[..i] + [run] + s[i..]; SerialIn(serials, t[j]) < SerialIn(serials, t[k])
  {
    hide SerialIn;
    var t := s[..i] + [run] + s[i..];
    assert t[j] == (if j < i then s[j] else if j == i then run else s[j - 1]);
    assert t[k] == (if k < i then s[k] else if k == i then run else s[k - 1]);
  }

  /** Later runs are told apart, are not the run itself, and are newer. */
  ghost predicate Newer(serials: map<nat, nat>, run: nat, later: seq<nat>) {
    && Distinct([run] + later) && 0 !in later
    && forall r | r in later :: SerialIn(serials, r) > SerialIn(serials, run)
  }

  /** The session went on giving out serials, and took none back. */
  predicate Since(earlier: map<nat, nat>, serials: map<nat, nat>) {
    forall r | r in earlier :: r in serials && serials[r] == earlier[r]
  }

  /** The later runs of a run stay newer than it however many are adopted while they are looked up. */
  lemma {:induction false} LaterRunsNewer(earlier: map<nat, nat>, serials: map<nat, nat>, run: nat, later: seq<nat>)
    requires IsLater(earlier, run, later) && Since(earlier, serials) && 0 !in earlier
    ensures Newer(serials, run, later)
  {
    forall i, j | 0 <= i < j < |[run] + later|
      ensures ([run] + later)[i] != ([run] + later)[j]
    {
      assert later[j - 1] in later;
      if i > 0 {
        assert SerialIn(earlier, later[i - 1]) < SerialIn(earlier, later[j - 1]);
      }
    }
  }

  /** A subscription that resumes after a sequence of a run, then replays the later runs in full. */
  function Resuming(serials: map<nat, nat>, issued: nat, run: nat, after: nat, later: seq<nat>, oneRun: bool): Sub {
    Sub(serials, issued, run, after, SerialIn(serials, run), oneRun, Some(run), later, map[run := after], after, 0,
        false, None, [])
  }

  function Joining(serials: map<nat, nat>, issued: nat): Sub {
    Sub(serials, issued, 0, 0, 0, false, None, [], map[], 0, 0, false, None, [])
  }

  /** How a subscription starts: live, or at a cursor with the later runs, looked up a moment earlier. */
  ghost predicate Starts(s: Sub) {
    && Issued(s.serials, s.issued)
    && (s == Joining(s.serials, s.issued)
        || (&& s == Resuming(s.serials, s.issued, s.start, s.after, s.later, s.oneRun) && s.start != 0
            && (s.later == [] || exists earlier :: IsLater(earlier, s.start, s.later) && Since(earlier, s.serials))))
  }

  function PositionOf(s: Sub, run: nat): nat {
    if run in s.positions then s.positions[run] else 0
  }

  function ObservedSequence(e: Envelope, last: nat): nat {
    if e.sequence.Some? && e.sequence.value > last then e.sequence.value else last
  }

  function Moved(positions: map<nat, nat>, e: Envelope): map<nat, nat> {
    if e.sequence.Some? then positions[e.run := e.sequence.value] else positions
  }

  function HandedOut(s: Sub, e: Envelope): Sub {
    s.(handed := s.handed + [e])
  }

  // ------------------------------------------------------------ the steps

  datatype Step =
    | RunAdopted(adopted: nat)
    | ReplayItem(item: Envelope)
    | ReplayError(overflow: bool)
    | ReplayEnd
    | ReplayAbandoned
    | LiveItem(live: Envelope)
    | LiveOverflow(run: nat)
    | LiveEnd(error: Option<Error>)
    | Cancelled

  /** The session takes on a run and gives it the next serial. */
  function Adopted(s: Sub, run: nat): Sub {
    s.(serials := s.serials[run := s.issued + 1], issued := s.issued + 1)
  }

  function Replayed(s: Sub, e: Envelope): Sub {
    HandedOut(s.(last := ObservedSequence(e, s.last), positions := Moved(s.positions, e)), e)
  }

  function ReplayFailed(s: Sub, overflow: bool): Sub {
    s.(finished := true,
       error := Some(if overflow && s.replaying.Some? then OverflowError(s.replaying.value, s.last) else OtherError))
  }

  /** A replay that ends gives way to the next one, and the last to the live queue. */
  function ReplayEnded(s: Sub): Sub {
    if s.later == [] then s.(replaying := None)
    else s.(replaying := Some(s.later[0]), last := 0, later := s.later[1..])
  }

  /** Whether a live envelope is handed out. */
  predicate Passes(s: Sub, e: Envelope) {
    e.run == 0 || (
      && !(s.firstRun > 0 && SerialIn(s.serials, e.run) < s.firstRun)
      && !(e.sequence.Some? && e.sequence.value <= PositionOf(s, e.run)))
  }

  function Observed(s: Sub, e: Envelope): Sub {
    if !Passes(s, e) then s
    else if e.run == 0 then HandedOut(s, e)
    else
      var last := if e.run != s.lastRun then 0 else s.last;
      HandedOut(s.(lastRun := e.run, last := ObservedSequence(e, last), positions := Moved(s.positions, e)), e)
  }

  function Ended(s: Sub, error: Error): Sub {
    s.(finished := true, error := Some(error))
  }

  predicate Enabled(s: Sub, t: Step) {
    && !s.finished
    && match t
       case RunAdopted(run) => run != 0
       case ReplayItem(_) => s.replaying.Some?
       case ReplayError(_) => s.replaying.Some?
       case ReplayEnd => s.replaying.Some?
       case ReplayAbandoned => s.replaying.Some?
       case LiveItem(_) => s.replaying.None? && !s.oneRun
       case LiveOverflow(_) => s.replaying.None? && !s.oneRun
       case LiveEnd(e) => s.replaying.None? && !(e.Some? && e.value.OverflowError?)
       case Cancelled => true
  }

  function Apply(s: Sub, t: Step): Sub {
    match t
    case RunAdopted(run) => Adopted(s, run)
    case ReplayItem(e) => Replayed(s, e)
    case ReplayError(overflow) => ReplayFailed(s, overflow)
    case ReplayEnd => ReplayEnded(s)
    case ReplayAbandoned => s.(replaying := None, later := [])
    case LiveItem(e) => Observed(s, e)
    case LiveOverflow(run) => Ended(s, OverflowError(run, PositionOf(s, run)))
    case LiveEnd(error) => Ended(s, if error.Some? then error.value else EndOfStream)
    case Cancelled => Ended(s, OtherError)
  }

  /** A replay carries its own run's envelopes, numbered past where it starts. Nothing is asked of
      the live queue. */
  ghost predicate Fits(s: Sub, t: Step) {
    t.ReplayItem? && s.replaying.Some? ==>
      && t.item.run == s.replaying.value
      && t.item.sequence.Some? && t.item.sequence.value > s.last
  }

  predicate Moves(s: Sub, t: Step, s': Sub) {
    Enabled(s, t) && s' == Apply(s, t)
  }

  /** A history of a subscription: its states, step by step. */
  ghost predicate Leads(steps: seq<Step>, subs: seq<Sub>) {
    && |subs| == |steps| + 1 && Starts(subs[0])
    && forall i | 0 <= i < |steps| :: Moves(subs[i], steps[i], subs[i + 1]) && Fits(subs[i], steps[i])
  }

  // ------------------------------------------------------------ what every history keeps

  /** The last sequence handed out of a run, if any. */
  function LastOf(handed: seq<Envelope>, run: nat): Option<nat> {
    if handed == [] then None
    else
      var e := handed[|handed| - 1];
      if e.run == run && e.sequence.Some? then e.sequence else LastOf(handed[..|handed| - 1], run)
  }

  /** Where the subscription stands in a run: what it last handed out of it, its cursor, or 0. */
  function StandsAt(s: Sub, run: nat): nat {
    match LastOf(s.handed, run)
    case Some(n) => n
    case None => if run == s.start && s.start != 0 then s.after else 0
  }

  /** The sequences handed out of each run strictly increase. */
  ghost predicate Increasing(handed: seq<Envelope>) {
    forall i, j | 0 <= i < j < |handed| && handed[i].run == handed[j].run != 0
                  && handed[i].sequence.Some? && handed[j].sequence.Some? ::
      handed[i].sequence.value < handed[j].sequence.value
  }

  /** No run older than the first has been handed out, or is to be replayed. */
  ghost predicate NoneOlder(s: Sub) {
    && Issued(s.serials, s.issued)
    && (forall e | e in s.handed && e.run != 0 :: SerialIn(s.serials, e.run) >= s.firstRun)
    && (s.replaying.Some? ==> SerialIn(s.serials, s.replaying.value) >= s.firstRun)
    && forall run | run in s.later :: SerialIn(s.serials, run) >= s.firstRun
  }

  ghost predicate Placed(s: Sub) {
    && (forall run | run != 0 :: PositionOf(s, run) == StandsAt(s, run))
    && (s.replaying.Some? ==> s.replaying.value != 0 && s.last == PositionOf(s, s.replaying.value) && s.replaying.value !in s.later)
    && Distinct(s.later) && 0 !in s.later && (forall run | run in s.later :: run !in s.positions)
    && (s.start != 0 ==> s.start in s.positions)
    && (s.error.Some? && s.error.value.OverflowError? && s.error.value.run != 0 ==>
          s.error.value.lastSequence == StandsAt(s, s.error.value.run))
  }

  ghost predicate Sound(s: Sub) {
    Increasing(s.handed) && Placed(s) && NoneOlder(s)
  }

  lemma {:induction false} LastSnoc(handed: seq<Envelope>, e: Envelope, run: nat)
    ensures LastOf(handed + [e], run) == if e.run == run && e.sequence.Some? then e.sequence else LastOf(handed, run)
  {
    assert (handed + [e])[..|handed|] == handed;
  }

  lemma {:induction false} LastIsHighest(handed: seq<Envelope>, run: nat)
    requires Increasing(handed) && run != 0
    ensures forall i | 0 <= i < |handed| && handed[i].run == run && handed[i].sequence.Some? ::
      LastOf(handed, run).Some? && handed[i].sequence.value <= LastOf(handed, run).value
    decreases |handed|
  {
    if handed != [] {
      var front := handed[..|handed| - 1];
      assert forall i | 0 <= i < |front| :: front[i] == handed[i];
      LastIsHighest(front, run);
      forall i | 0 <= i < |handed| && handed[i].run == run && handed[i].sequence.Some?
        ensures LastOf(handed, run).Some? && handed[i].sequence.value <= LastOf(handed, run).value
      {
        if i < |front| {
          assert front[i] == handed[i];
        }
      }
    }
  }

  lemma {:induction false} IncreasingSnoc(handed: seq<Envelope>, e: Envelope)
    requires Increasing(handed)
    requires e.run != 0 && e.sequence.Some? && LastOf(handed, e.run).Some? ==> LastOf(handed, e.run).value < e.sequence.value
    ensures Increasing(handed + [e])
  {
    if e.run != 0 {
      LastIsHighest(handed, e.run);
    }
  }

  /** Handing out an envelope past where the subscription stands in its run. */
  lemma {:induction false} HandingOut(s: Sub, s': Sub, e: Envelope)
    requires Increasing(s.handed) && forall run | run != 0 :: PositionOf(s, run) == StandsAt(s, run)
    requires s'.handed == s.handed + [e] && s'.start == s.start && s'.after == s.after
    requires e.run != 0 ==> s'.positions == Moved(s.positions, e)
    requires e.run == 0 ==> s'.positions == s.positions
    requires e.run != 0 && e.sequence.Some? ==> e.sequence.value > PositionOf(s, e.run)
    ensures Increasing(s'.handed) && forall run | run != 0 :: PositionOf(s', run) == StandsAt(s', run)
  {
    hide Increasing, LastOf;
    IncreasingSnoc(s.handed, e);
    forall run | run != 0
      ensures PositionOf(s', run) == StandsAt(s', run)
    {
      LastSnoc(s.handed, e, run);
      assert PositionOf(s, run) == StandsAt(s, run);
    }
  }

  lemma {:induction false} SoundReplayed(s: Sub, e: Envelope)
    requires Sound(s) && Enabled(s, ReplayItem(e)) && Fits(s, ReplayItem(e)) && s.error.None?
    ensures Sound(Replayed(s, e))
  {
    hide Increasing, LastOf, StandsAt, Issued;
    HandingOut(s, Replayed(s, e), e);
  }

  lemma {:induction false} SoundObserved(s: Sub, e: Envelope)
    requires Sound(s) && Enabled(s, LiveItem(e)) && s.error.None? && s.later == []
    ensures Sound(Observed(s, e))
  {
    hide Increasing, LastOf, StandsAt, Issued;
    if Passes(s, e) {
      HandingOut(s, Observed(s, e), e);
    }
  }

  /** A step that hands nothing out leaves the subscription where it stands. */
  lemma {:induction false} SamePlaces(s: Sub, s': Sub)
    requires forall run | run != 0 :: PositionOf(s, run) == StandsAt(s, run)
    requires s'.handed == s.handed && s'.start == s.start && s'.after == s.after && s'.positions == s.positions
    ensures forall run | run != 0 :: PositionOf(s', run) == StandsAt(s', run)
  {
    forall run | run != 0
      ensures PositionOf(s', run) == StandsAt(s', run)
    {
      assert PositionOf(s, run) == StandsAt(s, run);
    }
  }

  lemma {:induction false} SoundEnded(s: Sub)
    requires Sound(s) && s.error.None?
    ensures Sound(ReplayEnded(s))
  {
    hide Increasing, LastOf, StandsAt, Issued;
    var s' := ReplayEnded(s);
    if s.later != [] {
      assert s.later[0] in s.later;
      assert forall i | 0 <= i < |s'.later| :: s'.later[i] == s.later[i + 1];
    }
    SamePlaces(s, s');
  }

  /** A failure that names a run names the position in it. */
  lemma {:induction false} SoundFailed(s: Sub, s': Sub)
    requires Sound(s) && s' == s.(finished := true, error := s'.error) && s'.error.Some?
    requires s'.error.value.OverflowError? ==>
      var e := s'.error.value;
      e.lastSequence == PositionOf(s, e.run) || (s.replaying == Some(e.run) && e.lastSequence == s.last)
    ensures Sound(s')
  {
    hide Increasing, LastOf, StandsAt, Issued;
    SamePlaces(s, s');
  }

  lemma {:induction false} SoundLess(s: Sub)
    requires Sound(s) && s.error.None?
    ensures Sound(s.(replaying := None, later := []))
  {
    hide Increasing, LastOf, StandsAt, Issued;
    SamePlaces(s, s.(replaying := None, later := []));
  }

  /** A run adopted takes a serial above all before it, so no run becomes older. */
  lemma {:induction false} SoundAdopted(s: Sub, run: nat)
    requires Sound(s) && run != 0 && s.error.None?
    ensures Sound(Adopted(s, run))
  {
    hide Increasing, LastOf, StandsAt;
    SamePlaces(s, Adopted(s, run));
    assert forall r :: SerialIn(Adopted(s, run).serials, r) >= SerialIn(s.serials, r);
  }

  /** Between two steps nothing has failed yet, and the live queue comes after every replay. */
  ghost predicate Going(s: Sub) {
    (!s.finished ==> s.error.None?) && (s.replaying.None? ==> s.later == [])
  }

  lemma {:induction false} SoundStep(s: Sub, t: Step)
    requires Sound(s) && Going(s) && Enabled(s, t) && Fits(s, t)
    ensures Sound(Apply(s, t)) && Going(Apply(s, t))
    ensures s.handed <= Apply(s, t).handed
  {
    hide Increasing, LastOf, Sound;
    match t
    case RunAdopted(run) => SoundAdopted(s, run);
    case ReplayItem(e) => SoundReplayed(s, e);
    case ReplayError(overflow) => SoundFailed(s, ReplayFailed(s, overflow));
    case ReplayEnd => SoundEnded(s);
    case ReplayAbandoned => SoundLess(s);
    case LiveItem(e) => SoundObserved(s, e);
    case LiveOverflow(run) => SoundFailed(s, Apply(s, t));
    case LiveEnd(_) => SoundFailed(s, Apply(s, t));
    case Cancelled => SoundFailed(s, Apply(s, t));
  }

  lemma {:induction false} ResumingSound(serials: map<nat, nat>, issued: nat, run: nat, after: nat, later: seq<nat>, oneRun: bool)
    requires Issued(serials, issued) && run != 0 && Newer(serials, run, later)
    ensures Sound(Resuming(serials, issued, run, after, later, oneRun)) && Going(Resuming(serials, issued, run, after, later, oneRun))
  {
    hide Issued;
    forall i | 0 <= i < |later|
      ensures later[i] != run
    {
      assert ([run] + later)[i + 1] == later[i] && ([run] + later)[0] == run;
    }
    forall i, j | 0 <= i < j < |later|
      ensures later[i] != later[j]
    {
      assert ([run] + later)[i + 1] == later[i] && ([run] + later)[j + 1] == later[j];
    }
  }

  lemma {:induction false} JoiningSound(serials: map<nat, nat>, issued: nat)
    requires Issued(serials, issued)
    ensures Sound(Joining(serials, issued)) && Going(Joining(serials, issued))
  {
    hide Issued;
  }

  lemma {:induction false} StartSound(s: Sub)
    requires Starts(s)
    ensures Sound(s) && Going(s)
  {
    hide Sound, Going, IsLater, Issued;
    if s == Joining(s.serials, s.issued) {
      JoiningSound(s.serials, s.issued);
    } else {
      if s.later == [] {
        NoneLater(s.serials, s.start);
      } else {
        var earlier :| IsLater(earlier, s.start, s.later) && Since(earlier, s.serials);
        EarlierNamed(earlier, s.serials, s.issued);
        LaterRunsNewer(earlier, s.serials, s.start, s.later);
      }
      ResumingSound(s.serials, s.issued, s.start, s.after, s.later, s.oneRun);
    }
  }

  lemma {:induction false} NoneLater(serials: map<nat, nat>, run: nat)
    ensures Newer(serials, run, [])
  {
  }

  lemma {:induction false} EarlierNamed(earlier: map<nat, nat>, serials: map<nat, nat>, issued: nat)
    requires Since(earlier, serials) && Issued(serials, issued)
    ensures 0 !in earlier
  {
  }

  /** Over every history, whatever comes on the live queue and whichever runs the session adopts
      meanwhile: the sequences handed out of each run strictly increase, no run older than the
      first is handed out, and an overflow names where the subscription stands in the run it names. */
  lemma {:induction false} EveryHistorySound(steps: seq<Step>, subs: seq<Sub>, n: nat)
    requires Leads(steps, subs) && n <= |steps|
    ensures Sound(subs[n]) && Going(subs[n])
  {
    hide Sound, Starts, Going;
    if n == 0 {
      StartSound(subs[0]);
    } else {
      EveryHistorySound(steps, subs, n - 1);
      assert Moves(subs[n - 1], steps[n - 1], subs[n]);
      SoundStep(subs[n - 1], steps[n - 1]);
    }
  }

  // ------------------------------------------------------------ what every step comes to

  /** A live envelope is due when it is the session's own, or its run is not older than the first and it
      lies past where the subscription stands in it. */
  ghost predicate Due(s: Sub, e: Envelope) {
    e.run == 0 || (
      && (s.firstRun == 0 || SerialIn(s.serials, e.run) >= s.firstRun)
      && (e.sequence.None? || e.sequence.value > StandsAt(s, e.run)))
  }

  function HandedBy(t: Step, due: bool): seq<Envelope> {
    match t
    case ReplayItem(e) => [e]
    case LiveItem(e) => if due then [e] else []
    case _ => []
  }

  /** How a step ends a subscription, if it does: an overflow names the run and where the subscription
      stands in it. */
  ghost function EndedBy(s: Sub, t: Step): Option<Error> {
    match t
    case ReplayError(overflow) =>
      if overflow && s.replaying.Some? then Some(OverflowError(s.replaying.value, StandsAt(s, s.replaying.value)))
      else Some(OtherError)
    case LiveOverflow(run) => Some(OverflowError(run, if run == 0 then PositionOf(s, 0) else StandsAt(s, run)))
    case LiveEnd(error) => Some(if error.Some? then error.value else EndOfStream)
    case Cancelled => Some(OtherError)
    case _ => None
  }

  /** Over every history: each replayed envelope is handed out, and each live one that is due; nothing else
      is; and a step ends the subscription with its own error or not at all. */
  lemma {:induction false} EveryStepTold(steps: seq<Step>, subs: seq<Sub>, n: nat)
    requires Leads(steps, subs) && n < |steps|
    ensures var s, t, s' := subs[n], steps[n], subs[n + 1];
      && s'.handed == s.handed + HandedBy(t, t.LiveItem? && Due(s, t.live))
      && s'.finished == EndedBy(s, t).Some? && s'.error == EndedBy(s, t)
  {
    hide Sound, Going;
    EveryHistorySound(steps, subs, n);
    assert Moves(subs[n], steps[n], subs[n + 1]);
    StepTold(subs[n], steps[n]);
  }

  lemma {:induction false} StepTold(s: Sub, t: Step)
    requires Sound(s) && Going(s) && Enabled(s, t)
    ensures var s' := Apply(s, t);
      && s'.handed == s.handed + HandedBy(t, t.LiveItem? && Due(s, t.live))
      && s'.finished == EndedBy(s, t).Some? && s'.error == EndedBy(s, t)
  {
    hide Increasing, NoneOlder, LastOf, StandsAt;
    match t {
      case LiveItem(e) =>
        if e.run != 0 {
          assert PositionOf(s, e.run) == StandsAt(s, e.run);
        }
      case LiveOverflow(run) =>
        if run != 0 {
          assert PositionOf(s, run) == StandsAt(s, run);
        }
      case ReplayError(_) => assert PositionOf(s, s.replaying.value) == StandsAt(s, s.replaying.value);
      case _ =>
    }
  }

  /** How many replays ended among some steps. */
  function EndsOf(steps: seq<Step>): nat {
    if steps == [] then 0 else EndsOf(steps[..|steps| - 1]) + if steps[|steps| - 1].ReplayEnd? then 1 else 0
  }

  /** The runs a subscription sets out to replay. */
  function ToReplay(s: Sub): seq<nat> {
    if s.start == 0 then [] else [s.start] + s.later
  }

  /** A subscription is at the next of the runs set out to after some replays have ended, or at none once
      they were given up. */
  predicate InTurn(s: Sub, runs: seq<nat>, k: nat, abandoned: bool) {
    if abandoned then s.replaying.None?
    else
      && k <= |runs| && s.replaying == (if k < |runs| then Some(runs[k]) else None)
      && s.later == (if k < |runs| then runs[k + 1..] else [])
  }

  lemma {:induction false} TurnStep(s: Sub, t: Step, runs: seq<nat>, k: nat, abandoned: bool)
    requires InTurn(s, runs, k, abandoned) && Enabled(s, t)
    ensures InTurn(Apply(s, t), runs, if t.ReplayEnd? then k + 1 else k, abandoned || t.ReplayAbandoned?)
    ensures Apply(s, t).start == s.start && Apply(s, t).oneRun == s.oneRun && Apply(s, t).firstRun == s.firstRun
  {
    hide Passes, Moved, ObservedSequence;
    match t {
      case ReplayEnd =>
        if s.later != [] {
          assert runs[k + 1..][0] == runs[k + 1] && runs[k + 1..][1..] == runs[k + 2..];
        }
      case _ =>
    }
  }

  /** Over every history: unless the replays were given up, the run replayed is the next of those set out
      to, one after each replay that ended, and the live queue comes when all have; once they are given
      up none is. */
  lemma {:induction false} ReplaysInTurn(steps: seq<Step>, subs: seq<Sub>, n: nat)
    requires Leads(steps, subs) && n <= |steps|
    ensures InTurn(subs[n], ToReplay(subs[0]), EndsOf(steps[..n]), ReplayAbandoned in steps[..n])
    ensures subs[n].start == subs[0].start && subs[n].oneRun == subs[0].oneRun && subs[n].firstRun == subs[0].firstRun
  {
    hide Starts, Fits, Apply, InTurn, ToReplay;
    if n > 0 {
      ReplaysInTurn(steps, subs, n - 1);
      assert Moves(subs[n - 1], steps[n - 1], subs[n]);
      assert steps[..n] == steps[..n - 1] + [steps[n - 1]];
      EndsSnoc(steps[..n - 1], steps[n - 1]);
      TurnStep(subs[n - 1], steps[n - 1], ToReplay(subs[0]), EndsOf(steps[..n - 1]), ReplayAbandoned in steps[..n - 1]);
    } else {
      StartInTurn(subs[0]);
      assert steps[..0] == [];
    }
  }

  lemma {:induction false} StartInTurn(s: Sub)
    requires Starts(s)
    ensures InTurn(s, ToReplay(s), 0, false)
  {
    hide IsLater, Issued, Since;
  }

  lemma {:induction false} EndsSnoc(steps: seq<Step>, t: Step)
    ensures EndsOf(steps + [t]) == EndsOf(steps) + if t.ReplayEnd? then 1 else 0
  {
    assert (steps + [t])[..|steps|] == steps;
  }

  /** Over every history: no run is handed out that the session adopted before the one resumed in. */
  lemma {:induction false} NoOlderRun(steps: seq<Step>, subs: seq<Sub>, n: nat, e: Envelope)
    requires Leads(steps, subs) && n <= |steps| && e in subs[n].handed && e.run != 0
    ensures SerialIn(subs[n].serials, e.run) >= SerialIn(subs[0].serials, subs[0].start)
  {
    EveryHistorySound(steps, subs, n);
    ReplaysInTurn(steps, subs, n);
    FirstRunIs(subs[0]);
  }

  lemma {:induction false} FirstRunIs(s: Sub)
    requires Starts(s)
    ensures s.firstRun == SerialIn(s.serials, s.start)
  {
    hide IsLater, Since;
  }

  // ------------------------------------------------------------ replays and live together

  function ReplayAll(s: Sub, items: seq<Envelope>): Sub {
    if items == [] then s else Replayed(ReplayAll(s, items[..|items| - 1]), items[|items| - 1])
  }

  /** Several replays, one after another, each ending before the next. */
  function ReplaySeries(s: Sub, series: seq<seq<Envelope>>): Sub {
    if series == [] then s
    else ReplayEnded(ReplayAll(ReplaySeries(s, series[..|series| - 1]), series[|series| - 1]))
  }

  function LiveAll(s: Sub, queue: seq<Envelope>): Sub {
    if queue == [] then s else Observed(LiveAll(s, queue[..|queue| - 1]), queue[|queue| - 1])
  }

  /** A run's envelopes, numbered from 1 without gaps. */
  ghost predicate Trace(run: nat, trace: seq<Envelope>) {
    run != 0 && forall i | 0 <= i < |trace| :: trace[i].run == run && trace[i].sequence == Some(i + 1)
  }

  /** The subscription has handed out its run's envelopes from its cursor up to one, each once. */
  ghost predicate Caught(s: Sub, run: nat, trace: seq<Envelope>, after: nat, upTo: nat) {
    after <= upTo <= |trace| && G.Scope(s.handed, run) == trace[after..upTo] && PositionOf(s, run) == upTo
  }

  /** What a subscription knows of the serials does not change as it hands out. */
  ghost predicate SameSerials(s: Sub, s': Sub) {
    s'.serials == s.serials && s'.firstRun == s.firstRun
  }

  lemma {:induction false} CaughtNext(s: Sub, s': Sub, run: nat, trace: seq<Envelope>, after: nat, upTo: nat)
    requires Trace(run, trace) && Caught(s, run, trace, after, upTo) && upTo < |trace|
    requires s'.handed == s.handed + [trace[upTo]] && s'.positions == Moved(s.positions, trace[upTo])
    ensures Caught(s', run, trace, after, upTo + 1)
  {
    hide G.Scope;
    G.ScopeSnoc(s.handed, trace[upTo], run);
  }

  lemma {:induction false} CaughtOther(s: Sub, s': Sub, e: Envelope, run: nat, trace: seq<Envelope>, after: nat, upTo: nat)
    requires Caught(s, run, trace, after, upTo) && e.run != run
    requires s'.handed == s.handed + [e] && (s'.positions == Moved(s.positions, e) || s'.positions == s.positions)
    ensures Caught(s', run, trace, after, upTo)
  {
    hide G.Scope;
    G.ScopeSnoc(s.handed, e, run);
  }

  lemma {:induction false} ReplayCatches(s: Sub, run: nat, trace: seq<Envelope>, after: nat, m: nat)
    requires Trace(run, trace) && Caught(s, run, trace, after, after) && after <= m <= |trace|
    ensures Caught(ReplayAll(s, trace[after..m]), run, trace, after, m)
    decreases m - after
  {
    hide Caught, G.Scope;
    if m > after {
      ReplayCatches(s, run, trace, after, m - 1);
      assert trace[after..m][..m - 1 - after] == trace[after..m - 1];
      var before := ReplayAll(s, trace[after..m - 1]);
      CaughtNext(before, Replayed(before, trace[m - 1]), run, trace, after, m - 1);
    } else {
      assert trace[after..m] == [];
    }
  }

  lemma {:induction false} ReplayOthers(s: Sub, items: seq<Envelope>, run: nat, trace: seq<Envelope>, after: nat, upTo: nat)
    requires Caught(s, run, trace, after, upTo) && forall e | e in items :: e.run != run
    ensures Caught(ReplayAll(s, items), run, trace, after, upTo)
    decreases |items|
  {
    hide Caught;
    if items != [] {
      ReplayOthers(s, items[..|items| - 1], run, trace, after, upTo);
      var before := ReplayAll(s, items[..|items| - 1]);
      CaughtOther(before, Replayed(before, items[|items| - 1]), items[|items| - 1], run, trace, after, upTo);
    }
  }

  lemma {:induction false} EndCatches(s: Sub, run: nat, trace: seq<Envelope>, after: nat, upTo: nat)
    requires Caught(s, run, trace, after, upTo)
    ensures Caught(ReplayEnded(s), run, trace, after, upTo)
  {
  }

  /** The replays of some runs: one carries all of a run past where it starts, up to an end, and the
      others none of it. */
  ghost predicate ReplaysOf(runs: seq<nat>, series: seq<seq<Envelope>>, run: nat, trace: seq<Envelope>, after: nat, m: nat) {
    && |series| == |runs| && Distinct(runs) && after <= m <= |trace|
    && (run !in runs ==> m == after)
    && forall i | 0 <= i < |runs| ::
         if runs[i] == run then series[i] == trace[after..m] else forall e | e in series[i] :: e.run != run
  }

  lemma {:induction false} SeriesCatches(
    s: Sub, runs: seq<nat>, series: seq<seq<Envelope>>, run: nat, trace: seq<Envelope>, after: nat, m: nat, n: nat)
    requires Trace(run, trace) && Caught(s, run, trace, after, after) && ReplaysOf(runs, series, run, trace, after, m)
    requires n <= |series|
    ensures Caught(ReplaySeries(s, series[..n]), run, trace, after, if run in runs[..n] then m else after)
    decreases n
  {
    hide Caught, ReplayAll, ReplayEnded, Trace;
    if n > 0 {
      SeriesCatches(s, runs, series, run, trace, after, m, n - 1);
      assert series[..n][..n - 1] == series[..n - 1];
      var before := ReplaySeries(s, series[..n - 1]);
      assert runs[..n] == runs[..n - 1] + [runs[n - 1]];
      if runs[n - 1] == run {
        assert run !in runs[..n - 1];
        ReplayCatches(before, run, trace, after, m);
        EndCatches(ReplayAll(before, series[n - 1]), run, trace, after, m);
      } else {
        var upTo := if run in runs[..n - 1] then m else after;
        ReplayOthers(before, series[n - 1], run, trace, after, upTo);
        EndCatches(ReplayAll(before, series[n - 1]), run, trace, after, upTo);
      }
    }
  }

  lemma {:induction false} ReplaysKeepSerials(s: Sub, items: seq<Envelope>)
    ensures SameSerials(s, ReplayAll(s, items))
    decreases |items|
  {
    if items != [] {
      ReplaysKeepSerials(s, items[..|items| - 1]);
    }
  }

  lemma {:induction false} SeriesKeepsSerials(s: Sub, series: seq<seq<Envelope>>)
    ensures SameSerials(s, ReplaySeries(s, series))
    decreases |series|
  {
    if series != [] {
      SeriesKeepsSerials(s, series[..|series| - 1]);
      ReplaysKeepSerials(ReplaySeries(s, series[..|series| - 1]), series[|series| - 1]);
    }
  }

  /** The live queue, whatever else it carries, holds this run's envelopes j+1 onward, and starts
      no later than the replay ended: the overlap is passed over and the rest handed out. */
  lemma {:induction false} LiveCatches(
    s: Sub, run: nat, trace: seq<Envelope>, after: nat, m: nat, queue: seq<Envelope>, j: nat, n: nat)
    requires Trace(run, trace) && Caught(s, run, trace, after, m)
    requires j <= m && j <= n <= |trace| && G.Scope(queue, run) == trace[j..n]
    requires SerialIn(s.serials, run) >= s.firstRun
    ensures Caught(LiveAll(s, queue), run, trace, after, if m < n then n else m)
    ensures SameSerials(s, LiveAll(s, queue))
    decreases |queue|
  {
    hide Caught, Observed, G.Scope, Trace;
    if queue == [] {
      NothingQueued(run, trace, j, n);
    } else {
      var front, e := queue[..|queue| - 1], queue[|queue| - 1];
      QueueFront(queue, run, trace, j, n);
      if e.run == run {
        LiveCatches(s, run, trace, after, m, front, j, n - 1);
        LiveOne(LiveAll(s, front), e, run, trace, after, if m < n - 1 then n - 1 else m, n);
      } else {
        LiveCatches(s, run, trace, after, m, front, j, n);
        LiveOther(LiveAll(s, front), e, run, trace, after, if m < n then n else m);
      }
      ObservedSerials(LiveAll(s, front), e);
    }
  }

  lemma {:induction false} ObservedSerials(s: Sub, e: Envelope)
    ensures SameSerials(s, Observed(s, e))
  {
  }

  lemma {:induction false} NothingQueued(run: nat, trace: seq<Envelope>, j: nat, n: nat)
    requires j <= n <= |trace| && G.Scope([], run) == trace[j..n]
    ensures j == n
  {
    assert |trace[j..n]| == n - j;
  }

  /** The last of a queue is the last of its run, or of another. */
  lemma {:induction false} QueueFront(queue: seq<Envelope>, run: nat, trace: seq<Envelope>, j: nat, n: nat)
    requires queue != [] && j <= n <= |trace| && G.Scope(queue, run) == trace[j..n]
    ensures var front, e := queue[..|queue| - 1], queue[|queue| - 1];
      if e.run == run then j < n && e == trace[n - 1] && G.Scope(front, run) == trace[j..n - 1]
      else G.Scope(front, run) == trace[j..n]
  {
    hide G.Scope;
    var front, e := queue[..|queue| - 1], queue[|queue| - 1];
    assert queue == front + [e];
    G.ScopeSnoc(front, e, run);
    if e.run == run {
      var scope := G.Scope(front, run);
      assert scope + [e] == trace[j..n];
      assert |trace[j..n]| == n - j == |scope| + 1;
      assert scope == (scope + [e])[..n - 1 - j] == trace[j..n - 1];
      assert e == (scope + [e])[n - 1 - j];
    }
  }

  lemma {:induction false} LiveOne(s: Sub, e: Envelope, run: nat, trace: seq<Envelope>, after: nat, upTo: nat, n: nat)
    requires Trace(run, trace) && Caught(s, run, trace, after, upTo) && 0 < n <= |trace| && e == trace[n - 1]
    requires n <= upTo + 1 && SerialIn(s.serials, run) >= s.firstRun
    ensures Caught(Observed(s, e), run, trace, after, if upTo < n then n else upTo)
  {
    hide G.Scope;
    if upTo < n {
      CaughtNext(s, Observed(s, e), run, trace, after, upTo);
    }
  }

  lemma {:induction false} LiveOther(s: Sub, e: Envelope, run: nat, trace: seq<Envelope>, after: nat, upTo: nat)
    requires Trace(run, trace) && Caught(s, run, trace, after, upTo) && e.run != run
    ensures Caught(Observed(s, e), run, trace, after, upTo)
  {
    hide Caught, Moved;
    if Passes(s, e) {
      CaughtOther(s, Observed(s, e), e, run, trace, after, upTo);
    }
  }

  lemma {:induction false} StartCaught(
    serials: map<nat, nat>, issued: nat, start: nat, after: nat, later: seq<nat>, run: nat, trace: seq<Envelope>)
    requires (if run == start then after else 0) <= |trace|
    ensures var at := if run == start then after else 0;
      Caught(Resuming(serials, issued, start, after, later, false), run, trace, at, at)
  {
    var at := if run == start then after else 0;
    assert trace[at..at] == [];
  }

  /** A subscription resumed after a cursor hands out, of the run it resumes in past the cursor and
      of every later run from its start, each envelope exactly once and in order: the replays run
      one after another, that of this run up to m, and the live queue holds the run from somewhere
      at or before m up to n. A run newer than those replayed comes from the live queue alone. */
  lemma {:induction false} ExactlyOnce(
    serials: map<nat, nat>, issued: nat, start: nat, after: nat, later: seq<nat>, series: seq<seq<Envelope>>,
    run: nat, trace: seq<Envelope>, m: nat, queue: seq<Envelope>, j: nat, n: nat)
    requires Trace(run, trace) && SerialIn(serials, run) >= SerialIn(serials, start)
    requires ReplaysOf([start] + later, series, run, trace, if run == start then after else 0, m)
    requires j <= m && j <= n <= |trace| && G.Scope(queue, run) == trace[j..n]
    ensures var s := ReplaySeries(Resuming(serials, issued, start, after, later, false), series);
      var from := if run == start then after else 0;
      G.Scope(LiveAll(s, queue).handed, run) == trace[from..if m < n then n else m]
  {
    hide G.Scope, ReplaySeries, LiveAll;
    var s0 := Resuming(serials, issued, start, after, later, false);
    var from := if run == start then after else 0;
    StartCaught(serials, issued, start, after, later, run, trace);
    SeriesCatches(s0, [start] + later, series, run, trace, from, m, |series|);
    assert series[..|series|] == series && ([start] + later)[..|series|] == [start] + later;
    SeriesKeepsSerials(s0, series);
    LiveCatches(ReplaySeries(s0, series), run, trace, from, m, queue, j, n);
  }

  // ------------------------------------------------------------ the object

  class LiveSubscription {
    const start: nat
    const after: nat
    const firstRun: nat
    const oneRun: bool
    var replaying: Option<nat>
    var later: seq<nat>
    var positions: map<nat, nat>
    var last: nat
    var lastRun: nat
    var finished: bool
    var error: Option<Error>
    /** The session's serials, which it reads for each live envelope. */
    var serials: map<nat, nat>
    var issued: nat
    ghost var handed: seq<Envelope>

    ghost function View(): Sub
      reads this
    {
      Sub(serials, issued, start, after, firstRun, oneRun, replaying, later, positions, last, lastRun, finished, error, handed)
    }

    constructor Resume(serials: map<nat, nat>, issued: nat, run: nat, after: nat, oneRun: bool)
      requires Issued(serials, issued) && run != 0
      ensures View() == Resuming(serials, issued, run, after, later, oneRun)
      ensures if oneRun then later == [] else IsLater(serials, run, later)
      ensures Starts(View()) && Sound(View()) && Going(View())
    {
      var newer: seq<nat> := [];
      if !oneRun {
        newer := LaterRuns(serials, issued, run);
      }
      this.serials, this.issued := serials, issued;
      start, this.after, firstRun, this.oneRun := run, after, if run in serials then serials[run] else 0, oneRun;
      replaying, later, positions, last, lastRun := Some(run), newer, map[run := after], after, 0;
      finished, error, handed := false, None, [];
      new;
      hide IsLater, Sound;
      assert View() == Resuming(serials, issued, run, after, newer, oneRun);
      assert Since(serials, serials);
      StartSound(View());
    }

    constructor Join(serials: map<nat, nat>, issued: nat)
      requires Issued(serials, issued)
      ensures View() == Joining(serials, issued) && Sound(View()) && Going(View())
    {
      this.serials, this.issued := serials, issued;
      start, after, firstRun, oneRun := 0, 0, 0, false;
      replaying, later, positions, last, lastRun := None, [], map[], 0, 0;
      finished, error, handed := false, None, [];
      new;
      JoiningSound(serials, issued);
    }

    method AdoptRun(run: nat)
      requires Sound(View()) && Going(View()) && !finished && run != 0
      modifies this`serials, this`issued
      ensures View() == Apply(old(View()), RunAdopted(run)) && Sound(View()) && Going(View())
    {
      hide Sound;
      SoundStep(View(), RunAdopted(run));
      issued := issued + 1;
      serials := serials[run := issued];
    }

    /** A result of the current replay: an envelope handed out, or an error that ends it all. */
    method TakeReplayed(result: Option<Envelope>, overflow: bool)
      requires Sound(View()) && Going(View()) && !finished && replaying.Some?
      requires result.Some? ==> Fits(View(), ReplayItem(result.value))
      modifies this
      ensures View() == Apply(old(View()), if result.Some? then ReplayItem(result.value) else ReplayError(overflow))
      ensures Sound(View()) && Going(View())
    {
      hide Sound;
      SoundStep(View(), if result.Some? then ReplayItem(result.value) else ReplayError(overflow));
      if result.None? {
        finished := true;
        error := Some(if overflow then OverflowError(replaying.value, last) else OtherError);
        return;
      }
      var e := result.value;
      last := ObservedSequence(e, last);
      if e.sequence.Some? {
        positions := positions[e.run := e.sequence.value];
      }
      handed := handed + [e];
    }

    /** The current replay ended, or was given up with the ones after it. */
    method EndReplay(abandoned: bool)
      requires Sound(View()) && Going(View()) && !finished && replaying.Some?
      modifies this
      ensures View() == Apply(old(View()), if abandoned then ReplayAbandoned else ReplayEnd)
      ensures Sound(View()) && Going(View())
    {
      hide Sound;
      SoundStep(View(), if abandoned then ReplayAbandoned else ReplayEnd);
      if abandoned {
        later := [];
      }
      replaying := None;
      if |later| > 0 {
        replaying, last := Some(later[0]), 0;
        later := later[1..];
      }
    }

    /** A live envelope: handed out unless it is older than the first run or already handed out. */
    method Observe(e: Envelope) returns (passed: bool)
      requires Sound(View()) && Going(View()) && !finished && replaying.None? && !oneRun
      modifies this
      ensures View() == Apply(old(View()), LiveItem(e)) && passed == Passes(old(View()), e)
      ensures Sound(View()) && Going(View())
    {
      hide Sound;
      SoundStep(View(), LiveItem(e));
      if e.run == 0 {
        handed := handed + [e];
        return true;
      }
      if firstRun > 0 && (if e.run in serials then serials[e.run] else 0) < firstRun {
        return false;
      }
      if e.sequence.Some? && e.sequence.value <= (if e.run in positions then positions[e.run] else 0) {
        return false;
      }
      if e.run != lastRun {
        lastRun, last := e.run, 0;
      }
      last := ObservedSequence(e, last);
      if e.sequence.Some? {
        positions := positions[e.run := e.sequence.value];
      }
      handed := handed + [e];
      return true;
    }

    /** The live queue was stopped because it overflowed: the error names the cursor to resume at. */
    method EndOverflowed(run: nat) returns (lastSequence: nat)
      requires Sound(View()) && Going(View()) && !finished && replaying.None? && !oneRun
      modifies this
      ensures View() == Apply(old(View()), LiveOverflow(run)) && Sound(View()) && Going(View())
      ensures run != 0 ==> lastSequence == StandsAt(View(), run)
    {
      hide Sound;
      SoundStep(View(), LiveOverflow(run));
      lastSequence := 0;
      if run in positions {
        lastSequence := positions[run];
      }
      finished := true;
      error := Some(OverflowError(run, lastSequence));
      if run != 0 {
        OverflowStands(View(), run);
      }
    }
  }

  lemma {:induction false} OverflowStands(s: Sub, run: nat)
    requires Sound(s) && run != 0
    ensures PositionOf(s, run) == StandsAt(s, run)
  {
    hide Increasing, NoneOlder, StandsAt;
  }
}
