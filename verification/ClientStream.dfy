/** The client's event stream: it checks that what a server sends is contiguous, and resumes
    after a dropped connection at the last sequence it accepted. */
module ClientStream {
  import opened Basics

  /** An envelope as the client reads it; run 0 stands for an absent run id. */
  datatype Envelope = Envelope(run: nat, sequence: Option<nat>, sessionEvent: bool, terminal: bool, ours: bool, scoped: bool)

  /** The id of a frame: absent, unreadable, or a sequence with or without a run. */
  datatype FrameID = NoID | BadID | ID(run: nat, sequence: nat)

  datatype Error =
    | Malformed | ResumeMismatch | SequenceGap | DuplicateSequence | Disconnected | Server | Unreachable | EndOfStream

  datatype Stream = Stream(
    strict: bool, startAfter: Option<nat>, connected: bool, everConnected: bool, speculated: bool, resumed: bool,
    run: nat, last: nat, terminal: bool, connEvents: nat, emptyCycles: nat,
    finished: bool, error: Option<Error>, accepted: seq<Envelope>)

  function Fresh(strict: bool): Stream {
    Stream(strict, None, false, false, false, false, 0, 0, false, 0, 0, false, None, [])
  }

  function FreshAfter(strict: bool, run: nat, after: nat): Stream {
    Stream(strict, Some(after), false, false, false, false, run, after, false, 0, 0, false, None, [])
  }

  function Stopped(s: Stream, error: Error): Stream {
    s.(connected := false, finished := true, error := Some(error))
  }

  // ------------------------------------------------------------ delivering a frame

  /** An envelope that is well formed, and whose frame id, if any, agrees with it. */
  predicate WellFormed(e: Envelope, id: FrameID) {
    && e.ours && e.scoped && e.sequence.Some? && e.sequence.value > 0
    && match id
       case NoID => true
       case BadID => false
       case ID(run, sequence) => sequence == e.sequence.value && (run == 0 || run == e.run)
  }

  predicate Aside(e: Envelope) {
    e.run == 0 && e.sessionEvent
  }

  /** Why a stream refuses an envelope, if it does. */
  function Refusal(s: Stream, e: Envelope, id: FrameID): Option<Error> {
    if !WellFormed(e, id) then Some(Malformed)
    else if Aside(e) then None
    else
      var n := e.sequence.value;
      if s.resumed && s.run != 0 && e.run != s.run then Some(ResumeMismatch)
      else if s.resumed && n != s.last + 1 then Some(SequenceGap)
      else if e.run != s.run && s.run != 0 && n != 1 then Some(SequenceGap)
      else
        var last := if e.run != s.run && !(s.resumed && s.run == 0) then 0 else s.last;
        if last > 0 && n <= last then Some(DuplicateSequence)
        else if last > 0 && n != last + 1 then Some(SequenceGap)
        else None
  }

  function Accepted(s: Stream, e: Envelope): Stream {
    var s1 := s.(connEvents := s.connEvents + 1, accepted := s.accepted + [e]);
    if Aside(e) || e.sequence.None? then s1
    else s1.(resumed := false, run := e.run, last := e.sequence.value,
             terminal := if e.run != s.run then e.terminal else s.terminal || e.terminal)
  }

  function Delivered(s: Stream, e: Envelope, id: FrameID): Stream {
    match Refusal(s, e, id)
    case Some(error) => Stopped(s, error)
    case None => Accepted(s, e)
  }

  // ------------------------------------------------------------ connecting and dropping

  /** The cursor a connection asks for, and whether it is a guess. */
  function Cursor(s: Stream): (Option<nat>, bool) {
    if s.everConnected && s.run != 0 then (Some(s.last), false)
    else if s.startAfter.Some? then (s.startAfter, false)
    else if s.everConnected && !s.speculated then (Some(0), true)
    else (None, false)
  }

  datatype Outcome = Opened | NoRunToResume | Refused | NoAnswer

  /** One attempt to connect. */
  function Attempted(s: Stream, o: Outcome): Stream {
    var (after, speculative) := Cursor(s);
    match o
    case Opened => s.(connected := true, everConnected := true, resumed := after.Some?, connEvents := 0)
    case NoRunToResume => if speculative then s.(speculated := true) else Stopped(s, Server)
    case Refused => Stopped(s, Server)
    case NoAnswer => if s.everConnected then s else Stopped(s, Unreachable)
  }

  const MAX_EMPTY_CYCLES: nat := 3

  /** A connection lost. */
  function Dropped(s: Stream): Stream {
    var s1 := s.(connected := false);
    if s.terminal then Stopped(s1, EndOfStream)
    else
      var cycles := if s.connEvents == 0 then s.emptyCycles + 1 else 0;
      var s2 := s1.(emptyCycles := cycles);
      if s.connEvents == 0 && cycles >= MAX_EMPTY_CYCLES then Stopped(s2, Disconnected)
      else if s.strict then Stopped(s2, Disconnected)
      else s2
  }

  datatype Step =
    | Frame(envelope: Envelope, id: FrameID)
    | Connect(outcome: Outcome)
    | Drop
    | Fail(error: Error)

  predicate Enabled(s: Stream, t: Step) {
    && !s.finished
    && match t
       case Frame(_, _) => s.connected && !s.terminal
       case Connect(_) => !s.connected && !s.terminal
       case Drop => s.connected
       case Fail(_) => true
  }

  function Apply(s: Stream, t: Step): Stream {
    match t
    case Frame(e, id) => Delivered(s, e, id)
    case Connect(o) => Attempted(s, o)
    case Drop => Dropped(s)
    case Fail(error) => Stopped(s, error)
  }

  predicate Moves(s: Stream, t: Step, s': Stream) {
    Enabled(s, t) && s' == Apply(s, t)
  }

  /** A history of a stream opened live or after a cursor. */
  ghost predicate Leads(steps: seq<Step>, streams: seq<Stream>) {
    && |streams| == |steps| + 1
    && ((exists strict :: streams[0] == Fresh(strict))
        || (exists strict, run, after :: streams[0] == FreshAfter(strict, run, after)))
    && forall i | 0 <= i < |steps| :: Moves(streams[i], steps[i], streams[i + 1])
  }

  // ------------------------------------------------------------ contiguity

  /** The accepted envelopes of runs, in order. */
  function RunScoped(es: seq<Envelope>): seq<Envelope> {
    if es == [] then []
    else RunScoped(es[..|es| - 1]) + if es[|es| - 1].run != 0 then [es[|es| - 1]] else []
  }

  /** Since the last envelope of a run, an envelope with no run id that is not a session event
      was accepted. */
  predicate Loose(es: seq<Envelope>) {
    es != [] && es[|es| - 1].run == 0 && (!es[|es| - 1].sessionEvent || Loose(es[..|es| - 1]))
  }

  predicate Follows(a: Envelope, b: Envelope) {
    && a.sequence.Some? && b.sequence.Some?
    && (if b.run == a.run then b.sequence.value == a.sequence.value + 1 else b.sequence.value == 1)
  }

  /** Unless something runless came since, the stream stands at the last run envelope accepted. */
  ghost predicate Sound(s: Stream) {
    var scoped := RunScoped(s.accepted);
    && (scoped != [] ==>
          var a := scoped[|scoped| - 1];
          && a.sequence.Some? && a.sequence.value > 0
          && (if Loose(s.accepted) then s.run == 0 && s.last > 0 else s.run == a.run != 0 && s.last == a.sequence.value))
    && (scoped != [] ==> s.everConnected)
    && (s.resumed ==> s.everConnected)
    && (s.connected ==> s.everConnected)
  }

  lemma {:induction false} ScopedSnoc(es: seq<Envelope>, e: Envelope)
    ensures RunScoped(es + [e]) == if e.run != 0 then RunScoped(es) + [e] else RunScoped(es)
    ensures Loose(es + [e]) <==> e.run == 0 && (!e.sessionEvent || Loose(es))
  {
    assert (es + [e])[..|es|] == es;
  }

  lemma {:induction false} SoundStep(s: Stream, t: Step)
    requires Sound(s) && Enabled(s, t)
    ensures Sound(Apply(s, t))
  {
    hide RunScoped, Loose;
    match t
    case Frame(e, id) =>
      if Refusal(s, e, id).None? {
        SoundAccepted(s, e, id);
      }
    case Connect(_) =>
    case Drop =>
    case Fail(_) =>
  }

  lemma {:induction false} SoundAccepted(s: Stream, e: Envelope, id: FrameID)
    requires Sound(s) && Refusal(s, e, id).None? && s.connected
    ensures Sound(Accepted(s, e))
  {
    hide RunScoped, Loose;
    ScopedSnoc(s.accepted, e);
  }

  lemma {:induction false} EveryHistorySound(steps: seq<Step>, streams: seq<Stream>, n: nat)
    requires Leads(steps, streams) && n <= |steps|
    ensures Sound(streams[n])
  {
    hide Sound;
    if n == 0 {
      if strict :| streams[0] == Fresh(strict) {
        StartSound(strict, 0, 0);
      } else {
        var strict, run, after :| streams[0] == FreshAfter(strict, run, after);
        StartSound(strict, run, after);
      }
    } else {
      EveryHistorySound(steps, streams, n - 1);
      assert Moves(streams[n - 1], steps[n - 1], streams[n]);
      SoundStep(streams[n - 1], steps[n - 1]);
    }
  }

  lemma {:induction false} StartSound(strict: bool, run: nat, after: nat)
    ensures Sound(Fresh(strict)) && Sound(FreshAfter(strict, run, after))
  {
  }

  // ------------------------------------------------------------ what the next envelope may be

  function LastScoped(s: Stream): Envelope
    requires RunScoped(s.accepted) != []
  {
    RunScoped(s.accepted)[|RunScoped(s.accepted)| - 1]
  }

  ghost predicate NextIsBound(s: Stream)
    requires RunScoped(s.accepted) != []
  {
    forall e, id | Refusal(s, e, id).None? && e.run != 0 :: Follows(LastScoped(s), e)
  }

  /** The next envelope of a run accepted, on a connection that is resuming or not, is bound to
      follow the last one exactly when nothing runless was accepted since. */
  lemma {:induction false} BoundUnlessLoose(s: Stream)
    requires Sound(s) && RunScoped(s.accepted) != []
    ensures NextIsBound(s) <==> !Loose(s.accepted)
  {
    hide RunScoped, Loose;
    var a := LastScoped(s);
    if Loose(s.accepted) {
      var e := Envelope(a.run + 1, Some(s.last + 1), false, false, true, true);
      assert Refusal(s, e, NoID).None? && !Follows(a, e);
    }
  }

  /** A run-less envelope numbered 1 that is not a session event is accepted in the middle of any
      run, and after it an envelope of any run at any sequence. */
  lemma {:induction false} RunlessUnmoors(s: Stream, e: Envelope)
    requires Sound(s) && RunScoped(s.accepted) != [] && !Loose(s.accepted) && !s.resumed && !s.finished && s.connected && !s.terminal
    requires WellFormed(e, NoID) && e.run != 0
    ensures var x := Envelope(0, Some(1), false, false, true, true);
      && Refusal(s, x, NoID).None? && Enabled(Accepted(s, x), Frame(e, NoID))
      && Refusal(Accepted(s, x), e, NoID).None?
  {
    hide RunScoped, Loose;
  }

  /** The first envelope accepted after a cursor reconnect, other than a session event, is the
      successor of the last one accepted, in the same run. */
  lemma {:induction false} ResumedIsSuccessor(s: Stream, e: Envelope, id: FrameID)
    requires Sound(s) && RunScoped(s.accepted) != [] && !Loose(s.accepted) && !s.connected
    ensures Cursor(s) == (LastScoped(s).sequence, false)
    ensures var s' := Attempted(s, Opened);
      Refusal(s', e, id).None? && !Aside(e) ==>
        e.run == LastScoped(s).run && e.sequence == Some(LastScoped(s).sequence.value + 1)
  {
    hide RunScoped, Loose;
  }

  /** Session events do not disturb a resumption, and it is over with the first other envelope. */
  lemma {:induction false} ResumingUntilTaken(s: Stream, e: Envelope, id: FrameID)
    requires Sound(s) && RunScoped(s.accepted) != [] && !Loose(s.accepted) && s.resumed && Refusal(s, e, id).None?
    ensures var s' := Delivered(s, e, id);
      && s'.resumed == Aside(e)
      && (Aside(e) ==> s'.run == s.run && s'.last == s.last)
      && (!Aside(e) ==> e.run == LastScoped(s).run && e.sequence == Some(LastScoped(s).sequence.value + 1))
  {
    hide RunScoped, Loose;
  }

  /** No envelope with no run id was accepted but session events. */
  predicate Clean(es: seq<Envelope>) {
    forall i | 0 <= i < |es| && es[i].run == 0 :: es[i].sessionEvent
  }

  ghost predicate Contiguous(es: seq<Envelope>) {
    forall i | 0 <= i < |es| - 1 :: Follows(es[i], es[i + 1])
  }

  lemma {:induction false} CleanNeverLoose(es: seq<Envelope>)
    requires Clean(es)
    ensures !Loose(es)
    decreases |es|
  {
    if es != [] {
      CleanNeverLoose(es[..|es| - 1]);
    }
  }

  lemma {:induction false} ContiguousSnoc(es: seq<Envelope>, e: Envelope)
    requires Contiguous(es) && (es != [] ==> Follows(es[|es| - 1], e))
    ensures Contiguous(es + [e])
  {
    forall i | 0 <= i < |es + [e]| - 1
      ensures Follows((es + [e])[i], (es + [e])[i + 1])
    {
      if i < |es| - 1 {
        assert Follows(es[i], es[i + 1]);
      }
    }
  }

  lemma {:induction false} ContiguousStep(s: Stream, t: Step)
    requires Sound(s) && Enabled(s, t) && Contiguous(RunScoped(s.accepted)) && Clean(Apply(s, t).accepted)
    ensures Contiguous(RunScoped(Apply(s, t).accepted)) && Clean(s.accepted)
  {
    hide RunScoped, Loose, Contiguous, Clean;
    CleanBefore(s, t);
    CleanNeverLoose(s.accepted);
    if t.Frame? && Refusal(s, t.envelope, t.id).None? {
      ScopedSnoc(s.accepted, t.envelope);
      if t.envelope.run != 0 {
        ContiguousSnoc(RunScoped(s.accepted), t.envelope);
      }
    }
  }

  /** Over every history, whatever the server sends and however often the connection drops, if
      no run-less envelope but session events was accepted, the accepted envelopes of runs are
      contiguous: each is the next of its run, or the first of another. */
  lemma {:induction false} EveryHistoryContiguous(steps: seq<Step>, streams: seq<Stream>, n: nat)
    requires Leads(steps, streams) && n <= |steps| && Clean(streams[n].accepted)
    ensures Contiguous(RunScoped(streams[n].accepted))
  {
    hide Sound, Clean;
    if n == 0 {
      assert streams[0].accepted == [];
    } else {
      assert Moves(streams[n - 1], steps[n - 1], streams[n]);
      EveryHistorySound(steps, streams, n - 1);
      CleanBefore(streams[n - 1], steps[n - 1]);
      EveryHistoryContiguous(steps, streams, n - 1);
      ContiguousStep(streams[n - 1], steps[n - 1]);
    }
  }

  lemma {:induction false} CleanBefore(s: Stream, t: Step)
    requires Clean(Apply(s, t).accepted)
    ensures Clean(s.accepted)
  {
    hide Apply;
    AcceptedGrows(s, t);
    assert forall i | 0 <= i < |s.accepted| :: Apply(s, t).accepted[i] == s.accepted[i];
  }

  lemma {:induction false} AcceptedGrows(s: Stream, t: Step)
    ensures s.accepted <= Apply(s, t).accepted
  {
    hide Delivered, Attempted, Dropped;
    match t
    case Frame(e, id) => DeliveredGrows(s, e, id);
    case Connect(o) => AttemptedKeeps(s, o);
    case Drop => DroppedKeeps(s);
    case Fail(_) =>
  }

  lemma {:induction false} DeliveredGrows(s: Stream, e: Envelope, id: FrameID)
    ensures s.accepted <= Delivered(s, e, id).accepted
  {
    hide Refusal, Accepted, Stopped;
    AcceptedAdds(s, e);
    match Refusal(s, e, id)
    case Some(error) => StoppedKeeps(s, error);
    case None =>
  }

  lemma {:induction false} AcceptedAdds(s: Stream, e: Envelope)
    ensures Accepted(s, e).accepted == s.accepted + [e]
  {
    hide Aside;
  }

  lemma {:induction false} StoppedKeeps(s: Stream, error: Error)
    ensures Stopped(s, error).accepted == s.accepted
  {
  }

  lemma {:induction false} AttemptedKeeps(s: Stream, o: Outcome)
    ensures Attempted(s, o).accepted == s.accepted
  {
    match o
    case Opened =>
    case NoRunToResume =>
    case Refused =>
    case NoAnswer =>
  }

  lemma {:induction false} DroppedKeeps(s: Stream)
    ensures Dropped(s).accepted == s.accepted
  {
  }

  /** A run-less envelope between two runs: the second is accepted in the middle. */
  lemma {:induction false} RunlessBreaksContiguity()
    ensures var a, x, b := Envelope(1, Some(5), false, false, true, true), Envelope(0, Some(1), false, false, true, true),
                           Envelope(2, Some(77), false, false, true, true);
      var s := Apply(Apply(Apply(Apply(Fresh(false), Connect(Opened)), Frame(a, NoID)), Frame(x, NoID)), Frame(b, NoID));
      s.accepted == [a, x, b] && !s.finished && !Follows(a, b)
  {
  }

  lemma {:induction false} AcceptedNumbered(s: Stream, e: Envelope, id: FrameID)
    ensures Refusal(s, e, id).None? ==> e.sequence.Some?
  {
  }

  // ------------------------------------------------------------ the object

  class EventStream {
    const strict: bool
    const startAfter: Option<nat>
    var connected: bool
    var everConnected: bool
    var speculated: bool
    var resumed: bool
    var runID: nat
    var lastSeq: nat
    var terminal: bool
    var connEvents: nat
    var emptyCycles: nat
    var finished: bool
    var error: Option<Error>
    ghost var accepted: seq<Envelope>

    ghost function View(): Stream
      reads this
    {
      Stream(strict, startAfter, connected, everConnected, speculated, resumed, runID, lastSeq, terminal,
             connEvents, emptyCycles, finished, error, accepted)
    }

    constructor Live(strict: bool)
      ensures View() == Fresh(strict) && Sound(View())
    {
      this.strict, startAfter := strict, None;
      connected, everConnected, speculated, resumed, runID, lastSeq := false, false, false, false, 0, 0;
      terminal, connEvents, emptyCycles, finished, error, accepted := false, 0, 0, false, None, [];
    }

    constructor From(strict: bool, run: nat, after: nat)
      ensures View() == FreshAfter(strict, run, after) && Sound(View())
    {
      this.strict, startAfter := strict, Some(after);
      connected, everConnected, speculated, resumed, runID, lastSeq := false, false, false, false, run, after;
      terminal, connEvents, emptyCycles, finished, error, accepted := false, 0, 0, false, None, [];
    }

    method Stop(e: Error)
      modifies this`connected, this`finished, this`error
      ensures View() == Stopped(old(View()), e)
    {
      connected, finished, error := false, true, Some(e);
    }

    /** One frame of the connection: accepted, or the reason it is refused. */
    method Deliver(e: Envelope, id: FrameID) returns (refusal: Option<Error>)
      requires Sound(View()) && Enabled(View(), Frame(e, id))
      modifies this
      ensures refusal == Refusal(old(View()), e, id)
      ensures View() == Delivered(old(View()), e, id) && Sound(View())
    {
      hide Sound, Refusal;
      SoundStep(View(), Frame(e, id));
      refusal := Judge(e, id);
      AcceptedNumbered(View(), e, id);
      if refusal.Some? {
        Stop(refusal.value);
      } else {
        Accept(e);
      }
    }

    method Accept(e: Envelope)
      requires e.sequence.Some?
      modifies this`connEvents, this`accepted, this`resumed, this`runID, this`terminal, this`lastSeq
      ensures View() == Accepted(old(View()), e)
    {
      connEvents, accepted := connEvents + 1, accepted + [e];
      if e.run == 0 && e.sessionEvent {
        return;
      }
      resumed := false;
      if e.run != runID {
        runID, terminal := e.run, e.terminal;
      } else if e.terminal {
        terminal := true;
      }
      lastSeq := e.sequence.value;
    }

    method Judge(e: Envelope, id: FrameID) returns (refusal: Option<Error>)
      ensures refusal == Refusal(View(), e, id)
    {
      if !e.ours || !e.scoped || e.sequence.None? || e.sequence.value == 0 {
        return Some(Malformed);
      }
      var n := e.sequence.value;
      if id.BadID? || (id.ID? && (n != id.sequence || (id.run != 0 && id.run != e.run))) {
        return Some(Malformed);
      }
      if e.run == 0 && e.sessionEvent {
        return None;
      }
      if resumed {
        if runID != 0 && e.run != runID {
          return Some(ResumeMismatch);
        }
        if n != lastSeq + 1 {
          return Some(SequenceGap);
        }
      }
      var last := lastSeq;
      if e.run != runID {
        if !(resumed && runID == 0) {
          if runID != 0 && n != 1 {
            return Some(SequenceGap);
          }
          last := 0;
        }
      }
      if last > 0 {
        if n <= last {
          return Some(DuplicateSequence);
        }
        if n != last + 1 {
          return Some(SequenceGap);
        }
      }
      return None;
    }

    /** One attempt to connect, at the cursor the stream stands at. */
    method Attempt(o: Outcome)
      requires Sound(View()) && Enabled(View(), Connect(o))
      modifies this
      ensures View() == Attempted(old(View()), o) && Sound(View())
    {
      SoundStep(View(), Connect(o));
      var after, speculative := ChooseCursor();
      match o {
        case Opened =>
          connected, everConnected, resumed, connEvents := true, true, after.Some?, 0;
        case NoRunToResume =>
          if speculative {
            speculated := true;
          } else {
            Stop(Server);
          }
        case Refused => Stop(Server);
        case NoAnswer =>
          if !everConnected {
            Stop(Unreachable);
          }
      }
    }

    method ChooseCursor() returns (after: Option<nat>, speculative: bool)
      ensures (after, speculative) == Cursor(View())
    {
      if everConnected && runID != 0 {
        return Some(lastSeq), false;
      }
      if startAfter.Some? {
        return startAfter, false;
      }
      if everConnected && !speculated {
        return Some(0), true;
      }
      return None, false;
    }

    method Disconnect()
      requires Sound(View()) && Enabled(View(), Drop)
      modifies this
      ensures View() == Dropped(old(View())) && Sound(View())
    {
      SoundStep(View(), Drop);
      connected := false;
      if terminal {
        Stop(EndOfStream);
        return;
      }
      if connEvents == 0 {
        emptyCycles := emptyCycles + 1;
        if emptyCycles >= MAX_EMPTY_CYCLES {
          Stop(Disconnected);
          return;
        }
      } else {
        emptyCycles := 0;
      }
      if strict {
        Stop(Disconnected);
      }
    }
  }
}
