/** What the client's event stream takes: the frames a well-behaved server sends are accepted, one
    after another and across reconnections, and every other frame draws the error it should. */
module ClientAcceptance {
  import opened Basics
  import opened ClientStream

  /** A frame of the session whose envelope carries a sequence its id does not contradict. */
  predicate Readable(e: Envelope, id: FrameID) {
    && e.ours && e.scoped && e.sequence.Some? && e.sequence.value > 0
    && (id.NoID? || (id.ID? && id.sequence == e.sequence.value && (id.run == 0 || id.run == e.run)))
  }

  predicate Takes(s: Stream, s': Stream, e: Envelope) {
    s'.accepted == s.accepted + [e] && s'.finished == s.finished && s'.error == s.error && s'.connected == s.connected
  }

  predicate StopsWith(s: Stream, s': Stream, error: Error) {
    s'.accepted == s.accepted && s'.finished && s'.error == Some(error) && !s'.connected
  }

  /** What becomes of a frame, judged by the last envelope of a run accepted: a session event is taken;
      of the same run the successor alone; of another run the first alone, and none on a connection
      that resumes. Anything else stops the stream with its own error. */
  ghost predicate Answered(s: Stream, s': Stream, e: Envelope, id: FrameID)
    requires RunScoped(s.accepted) != [] && LastScoped(s).sequence.Some?
  {
    var a := LastScoped(s);
    if !Readable(e, id) then StopsWith(s, s', Malformed)
    else if e.run == 0 && e.sessionEvent then Takes(s, s', e)
    else
      var n, m := e.sequence.value, a.sequence.value;
      if e.run == a.run then
        if n == m + 1 then Takes(s, s', e)
        else if n <= m && !s.resumed then StopsWith(s, s', DuplicateSequence)
        else StopsWith(s, s', SequenceGap)
      else if s.resumed then StopsWith(s, s', ResumeMismatch)
      else if n == 1 then Takes(s, s', e)
      else StopsWith(s, s', SequenceGap)
  }

  lemma {:induction false} AnswersExactly(s: Stream, e: Envelope, id: FrameID)
    requires Sound(s) && RunScoped(s.accepted) != [] && !Loose(s.accepted)
    ensures Answered(s, Apply(s, Frame(e, id)), e, id)
  {
    hide RunScoped, Loose;
  }

  /** The first envelope of a stream opened live may be any, unless the stream has lost a connection
      before it; one opened after a cursor, or reconnected, is bound to the cursor's successor. */
  lemma {:induction false} FirstAnswered(s: Stream, e: Envelope, id: FrameID)
    requires Readable(e, id) && !(e.run == 0 && e.sessionEvent)
    ensures var s' := Apply(s, Frame(e, id));
      && (!s.resumed && s.run == 0 && e.run != 0 ==> Takes(s, s', e))
      && (s.resumed && (s.run == 0 || e.run == s.run) ==>
            if e.sequence.value == s.last + 1 then Takes(s, s', e) else StopsWith(s, s', SequenceGap))
      && (s.resumed && s.run != 0 && e.run != s.run ==> StopsWith(s, s', ResumeMismatch))
  {
  }

  // ------------------------------------------------------------ a well-behaved server

  /** The envelopes of some steps' frames, in order. */
  function Sent(steps: seq<Step>): seq<Envelope> {
    if steps == [] then []
    else Sent(steps[..|steps| - 1]) + if steps[|steps| - 1].Frame? then [steps[|steps| - 1].envelope] else []
  }

  /** A frame that goes on where those before it left off: a session event, the successor of the last
      run envelope, on a new connection that does not resume or on one under way the first of another
      run, and to begin with the successor of the cursor, or any of a live stream. */
  ghost predicate GoesOn(start: Stream, s: Stream, e: Envelope, id: FrameID) {
    && Readable(e, id) && (e.run == 0 ==> e.sessionEvent)
    && (e.run != 0 ==>
          var n := e.sequence.value;
          if RunScoped(s.accepted) == [] then
            || (n == start.last + 1 && (start.run == 0 || e.run == start.run))
            || (start.run == 0 && !s.resumed)
          else
            var a := LastScoped(s);
            (e.run == a.run && a.sequence == Some(n - 1)) || (e.run != a.run && n == 1 && !s.resumed))
  }

  /** Where a stream stands that has accepted no envelope of a run. */
  ghost predicate Unmoved(start: Stream, s: Stream) {
    RunScoped(s.accepted) == [] ==> s.run == start.run && s.last == start.last
  }

  lemma {:induction false} TakenUnlessRefused(s: Stream, e: Envelope, id: FrameID)
    requires Refusal(s, e, id).None?
    ensures Takes(s, Apply(s, Frame(e, id)), e)
  {
    hide Refusal;
  }

  lemma {:induction false} FirstTaken(s: Stream, e: Envelope, id: FrameID)
    requires Readable(e, id) && (e.run == 0 ==> e.sessionEvent)
    requires e.run != 0 ==>
      (e.sequence.value == s.last + 1 && (s.run == 0 || e.run == s.run)) || (s.run == 0 && !s.resumed)
    ensures Takes(s, Apply(s, Frame(e, id)), e)
  {
    hide Apply;
    assert Refusal(s, e, id).None?;
    TakenUnlessRefused(s, e, id);
  }

  lemma {:induction false} AsideKeeps(s: Stream, e: Envelope, id: FrameID)
    requires Readable(e, id) && e.run == 0 && e.sessionEvent
    ensures Apply(s, Frame(e, id)).run == s.run && Apply(s, Frame(e, id)).last == s.last
  {
    assert Refusal(s, e, id).None?;
  }

  lemma {:induction false} GoesOnTaken(start: Stream, s: Stream, e: Envelope, id: FrameID)
    requires Sound(s) && Clean(s.accepted) && Unmoved(start, s) && GoesOn(start, s, e, id)
    ensures var s' := Apply(s, Frame(e, id)); Takes(s, s', e) && Clean(s'.accepted) && Unmoved(start, s')
  {
    hide Sound, RunScoped, Loose, Clean, GoesOn, Apply;
    CleanNeverLoose(s.accepted);
    GoesOnParts(start, s, e, id);
    CleanSnoc(s.accepted, e);
    ScopedSnoc(s.accepted, e);
    if RunScoped(s.accepted) != [] {
      SoundScoped(s);
      AnswersExactly(s, e, id);
    } else {
      FirstTaken(s, e, id);
    }
    if e.run == 0 {
      AsideKeeps(s, e, id);
    }
  }

  lemma {:induction false} SoundScoped(s: Stream)
    requires Sound(s) && RunScoped(s.accepted) != []
    ensures LastScoped(s).sequence.Some?
  {
  }

  lemma {:induction false} GoesOnParts(start: Stream, s: Stream, e: Envelope, id: FrameID)
    requires GoesOn(start, s, e, id)
    ensures Readable(e, id) && (e.run == 0 ==> e.sessionEvent)
    ensures e.run != 0 && RunScoped(s.accepted) == [] ==>
      || (e.sequence.value == start.last + 1 && (start.run == 0 || e.run == start.run))
      || (start.run == 0 && !s.resumed)
    ensures e.run != 0 && RunScoped(s.accepted) != [] ==>
      var a, n := LastScoped(s), e.sequence.value;
      (e.run == a.run && a.sequence == Some(n - 1)) || (e.run != a.run && n == 1 && !s.resumed)
  {
  }

  lemma {:induction false} CleanSnoc(es: seq<Envelope>, e: Envelope)
    requires Clean(es) && (e.run == 0 ==> e.sessionEvent)
    ensures Clean(es + [e])
  {
  }

  /** A stream that is no further than another. */
  predicate Stands(s: Stream, s': Stream) {
    s'.accepted == s.accepted && s'.run == s.run && s'.last == s.last
  }

  lemma {:induction false} AttemptStands(s: Stream, o: Outcome)
    ensures Stands(s, Attempted(s, o))
  {
    hide Cursor;
    match o
    case Opened =>
    case NoRunToResume =>
    case Refused =>
    case NoAnswer =>
  }

  lemma {:induction false} DropStands(s: Stream)
    ensures Stands(s, Dropped(s))
  {
  }

  lemma {:induction false} OthersKeep(s: Stream, t: Step)
    requires !t.Frame?
    ensures Stands(s, Apply(s, t))
  {
    hide Attempted, Dropped;
    match t
    case Connect(o) => AttemptStands(s, o);
    case Drop => DropStands(s);
    case Fail(_) =>
  }

  /** Over every history of connections and drops: a server each of whose frames goes on where those
      before it left off has every frame accepted, in the order sent, and none stops the stream. */
  lemma {:induction false} EveryProperFrameTaken(steps: seq<Step>, streams: seq<Stream>, n: nat)
    requires Leads(steps, streams) && n <= |steps|
    requires forall i | 0 <= i < n && steps[i].Frame? :: GoesOn(streams[0], streams[i], steps[i].envelope, steps[i].id)
    ensures streams[n].accepted == Sent(steps[..n]) && Clean(streams[n].accepted) && Unmoved(streams[0], streams[n])
    ensures forall i | 0 <= i < n && steps[i].Frame? :: !streams[i + 1].finished
  {
    hide Sound, Clean, GoesOn, Apply;
    if n == 0 {
      assert streams[0].accepted == [];
      NothingClean();
    } else {
      EveryProperFrameTaken(steps, streams, n - 1);
      EveryHistorySound(steps, streams, n - 1);
      assert Moves(streams[n - 1], steps[n - 1], streams[n]);
      assert steps[..n][..n - 1] == steps[..n - 1];
      if steps[n - 1].Frame? {
        GoesOnTaken(streams[0], streams[n - 1], steps[n - 1].envelope, steps[n - 1].id);
      } else {
        OthersKeep(streams[n - 1], steps[n - 1]);
      }
    }
  }

  lemma {:induction false} NothingClean()
    ensures Clean([]) && RunScoped([]) == []
  {
  }

  // ------------------------------------------------------------ connecting

  /** Where a connection asks to go on from: where the stream stands once it has taken a run's envelope, or
      was opened in a run and has been connected; short of that at the cursor it was opened with; short of
      that, once connected, at a guessed beginning, tried once; and otherwise live. */
  ghost predicate AsksFrom(s: Stream, after: Option<nat>, guess: bool) {
    if s.everConnected && s.run != 0 then after == Some(s.last) && !guess
    else if s.startAfter.Some? then after == s.startAfter && !guess
    else if s.everConnected && !s.speculated then after == Some(0) && guess
    else after.None? && !guess
  }

  ghost predicate Connects(s: Stream, s': Stream, o: Outcome, after: Option<nat>, guess: bool) {
    match o
    case Opened => s'.connected && s'.everConnected && s'.resumed == after.Some? && s'.finished == s.finished && s'.accepted == s.accepted
    case NoRunToResume =>
      if guess then s'.speculated && !AsksFrom(s', Some(0), true) && s'.finished == s.finished && s'.accepted == s.accepted
      else StopsWith(s, s', Server)
    case Refused => StopsWith(s, s', Server)
    case NoAnswer => if s.everConnected then s' == s else StopsWith(s, s', Unreachable)
  }

  /** An attempt that opens resumes if it asked from somewhere. A guess the server cannot serve is given up and
      not made again. A server's refusal ends the stream; no answer ends one that was never connected and leaves
      any other to try again. */
  lemma {:induction false} ConnectionAnswered(s: Stream, o: Outcome)
    ensures exists after, guess :: AsksFrom(s, after, guess) && Connects(s, Apply(s, Connect(o)), o, after, guess)
  {
    var (after, guess) := Cursor(s);
    assert AsksFrom(s, after, guess);
    match o
    case Opened =>
    case NoRunToResume =>
    case Refused =>
    case NoAnswer =>
  }

  // ------------------------------------------------------------ when a stream ends

  /** The last envelope accepted but for session events ends its run. */
  predicate EndsRun(es: seq<Envelope>) {
    es != [] &&
    var e := es[|es| - 1];
    if e.run == 0 && e.sessionEvent then EndsRun(es[..|es| - 1]) else e.terminal
  }

  /** A frame came since the last connection was opened. */
  predicate Brought(steps: seq<Step>) {
    steps != [] &&
    var t := steps[|steps| - 1];
    t.Frame? || (t != Connect(Opened) && Brought(steps[..|steps| - 1]))
  }

  /** How many connections in a row, the last ones, were lost without having brought a frame. */
  function Silence(steps: seq<Step>): nat {
    if steps == [] then 0
    else
      var front := steps[..|steps| - 1];
      if !steps[|steps| - 1].Drop? then Silence(front) else if Brought(front) then 0 else Silence(front) + 1
  }

  lemma {:induction false} EndsSnoc(es: seq<Envelope>, e: Envelope)
    ensures EndsRun(es + [e]) == if e.run == 0 && e.sessionEvent then EndsRun(es) else e.terminal
  {
    assert (es + [e])[..|es|] == es;
  }

  /** What a stream remembers of its history. */
  ghost predicate Recalls(s: Stream, steps: seq<Step>) {
    && s.terminal == EndsRun(s.accepted)
    && (!s.finished ==> s.emptyCycles == Silence(steps) && (s.connected ==> (s.connEvents > 0) == Brought(steps)))
  }

  lemma {:induction false} HistorySnoc(steps: seq<Step>, t: Step)
    ensures Brought(steps + [t]) == (t.Frame? || (t != Connect(Opened) && Brought(steps)))
    ensures Silence(steps + [t]) == if !t.Drop? then Silence(steps) else if Brought(steps) then 0 else Silence(steps) + 1
  {
    assert (steps + [t])[..|steps|] == steps;
  }

  lemma {:induction false} RecallsFrame(s: Stream, steps: seq<Step>, e: Envelope, id: FrameID)
    requires Recalls(s, steps) && Enabled(s, Frame(e, id))
    ensures Recalls(Delivered(s, e, id), steps + [Frame(e, id)])
  {
    hide EndsRun, Brought, Silence, Refusal;
    EndsSnoc(s.accepted, e);
    HistorySnoc(steps, Frame(e, id));
    AcceptedNumbered(s, e, id);
  }

  lemma {:induction false} RecallsConnect(s: Stream, steps: seq<Step>, o: Outcome)
    requires Recalls(s, steps) && Enabled(s, Connect(o))
    ensures Recalls(Attempted(s, o), steps + [Connect(o)])
  {
    hide EndsRun, Brought, Silence;
    HistorySnoc(steps, Connect(o));
    match o
    case Opened =>
    case NoRunToResume =>
    case Refused =>
    case NoAnswer =>
  }

  lemma {:induction false} RecallsDrop(s: Stream, steps: seq<Step>)
    requires Recalls(s, steps) && Enabled(s, Drop)
    ensures Recalls(Dropped(s), steps + [Drop])
  {
    hide EndsRun, Brought, Silence;
    HistorySnoc(steps, Drop);
  }

  lemma {:induction false} RecallsStep(s: Stream, steps: seq<Step>, t: Step)
    requires Recalls(s, steps) && Enabled(s, t)
    ensures Recalls(Apply(s, t), steps + [t])
  {
    hide EndsRun, Brought, Silence, Delivered, Attempted, Dropped;
    match t
    case Frame(e, id) => RecallsFrame(s, steps, e, id);
    case Connect(o) => RecallsConnect(s, steps, o);
    case Drop => RecallsDrop(s, steps);
    case Fail(_) =>
  }

  lemma {:induction false} EveryHistoryRecalled(steps: seq<Step>, streams: seq<Stream>, n: nat)
    requires Leads(steps, streams) && n <= |steps|
    ensures Recalls(streams[n], steps[..n])
  {
    hide Apply, Enabled;
    if n > 0 {
      EveryHistoryRecalled(steps, streams, n - 1);
      assert Moves(streams[n - 1], steps[n - 1], streams[n]);
      assert steps[..n] == steps[..n - 1] + [steps[n - 1]];
      RecallsStep(streams[n - 1], steps[..n - 1], steps[n - 1]);
    }
  }

  /** Over every history, a lost connection ends the stream in order when the last run envelope ended
      its run, as a failure when the stream is strict or three connections in a row brought nothing,
      and otherwise not at all. */
  lemma {:induction false} LostConnection(steps: seq<Step>, streams: seq<Stream>, n: nat)
    requires Leads(steps, streams) && n < |steps| && steps[n].Drop?
    ensures var s, s' := streams[n], streams[n + 1];
      if EndsRun(s.accepted) then StopsWith(s, s', EndOfStream)
      else if s.strict || Silence(steps[..n + 1]) >= 3 then StopsWith(s, s', Disconnected)
      else !s'.finished && !s'.connected && s'.accepted == s.accepted && s'.run == s.run && s'.last == s.last
  {
    hide EndsRun;
    EveryHistoryRecalled(steps, streams, n);
    assert Moves(streams[n], steps[n], streams[n + 1]);
    assert steps[..n + 1][..n] == steps[..n];
  }
}
