/** The validator's compaction rules, one run at a time: a checker that watches a run's
    events and collects diagnostics. */
module CompactionChecker {
  import opened Basics
  import opened RunEvents

  datatype Code =
    | RunMismatch | Unpaired | EndedWithoutStart | FailedWithoutError | OpenAtTerminal | StopReasonMismatch

  datatype CompactionTrack = CompactionTrack(reason: Reason, outcome: Option<Outcome>)

  datatype Check = Check(
    compactionRun: bool, continues: bool, started: bool, terminal: bool,
    begun: bool, open: nat, tracks: map<nat, CompactionTrack>, diagnostics: seq<Code>)

  function Fresh(compactionRun: bool, continues: bool): Check {
    Check(compactionRun, continues, false, false, false, 0, map[], [])
  }

  /** The rules only add diagnostics, and never forget what the run was admitted as. */
  ghost predicate Grows(c: Check, c': Check) {
    && |c.diagnostics| <= |c'.diagnostics| && (c'.diagnostics == [] ==> c.diagnostics == [])
    && c'.compactionRun == c.compactionRun && c'.continues == c.continues
  }

  function Noted(c: Check, code: Code): (c': Check)
    ensures Grows(c, c') && c'.diagnostics != []
  {
    c.(diagnostics := c.diagnostics + [code])
  }

  function AfterEvent(c: Check, k: Kind): (c': Check)
    ensures Grows(c, c')
  {
    match k
    case CompactionStarted(id, reason) =>
      var n := if c.compactionRun != reason.Requested? then Noted(c, RunMismatch) else c;
      if c.open != 0 || id in c.tracks then Noted(n, Unpaired)
      else n.(open := id, begun := true, tracks := n.tracks[id := CompactionTrack(reason, None)])
    case CompactionEnded(id, outcome, withError) =>
      var n := if outcome.OutcomeFailed? && !withError then Noted(c, FailedWithoutError) else c;
      if id !in c.tracks || c.open != id then Noted(n, EndedWithoutStart)
      else n.(open := 0, tracks := n.tracks[id := n.tracks[id].(outcome := Some(outcome))])
    case _ => c
  }

  function AfterOpening(c: Check, k: Kind): (c': Check)
    ensures Grows(c, c')
  {
    if !c.compactionRun || !c.started || c.begun || Terminal(k) || k.RunStarted? || k.CompactionStarted? then c
    else Noted(c, RunMismatch)
  }

  predicate AllCompleted(tracks: map<nat, CompactionTrack>) {
    forall id | id in tracks :: tracks[id].outcome == Some(OutcomeCompleted)
  }

  function AfterTerminal(c: Check, k: Kind): (c': Check)
    ensures Grows(c, c')
  {
    if !Terminal(k) then c
    else
      var n := if c.open != 0 then Noted(c, OpenAtTerminal) else c;
      if !c.compactionRun || !c.started then n
      else if |c.tracks| != 1 then Noted(n, RunMismatch)
      else if c.continues || !k.RunCompleted? || !AllCompleted(c.tracks) then n
      else if k.stop != "compacted" then Noted(n, StopReasonMismatch)
      else n
  }

  /** One event of a run that has not settled, in the order the validator applies its rules. */
  function Observe(c: Check, k: Kind): (c': Check)
    ensures Grows(c, c')
  {
    if c.terminal then c
    else
      var n := AfterTerminal(AfterOpening(AfterEvent(c, k), k), k);
      n.(started := c.started || k.RunStarted?, terminal := Terminal(k))
  }

  function CheckOf(compactionRun: bool, continues: bool, ks: seq<Kind>): Check {
    if ks == [] then Fresh(compactionRun, continues)
    else Observe(CheckOf(compactionRun, continues, ks[..|ks| - 1]), ks[|ks| - 1])
  }

  lemma {:induction false} CheckSnoc(compactionRun: bool, continues: bool, ks: seq<Kind>, k: Kind)
    ensures CheckOf(compactionRun, continues, ks + [k]) == Observe(CheckOf(compactionRun, continues, ks), k)
  {
    assert (ks + [k])[..|ks|] == ks;
  }

  lemma {:induction false} ObserveFlags(c: Check, k: Kind)
    requires !c.terminal
    ensures var c' := Observe(c, k);
      && c'.terminal == Terminal(k) && c'.started == (c.started || k.RunStarted?)
      && c'.compactionRun == c.compactionRun && c'.continues == c.continues
  {
  }

  /** The checker object, whose fields the rules update in place. */
  class RunChecker {
    const compactionRun: bool
    const compactionContinue: bool
    var started: bool
    var terminal: bool
    var openCompaction: nat
    var compactionOpened: bool
    var compactions: map<nat, CompactionTrack>
    var diagnostics: seq<Code>

    ghost function View(): Check
      reads this
    {
      Check(compactionRun, compactionContinue, started, terminal, compactionOpened, openCompaction, compactions, diagnostics)
    }

    constructor (compactionRun: bool, continues: bool)
      ensures View() == Fresh(compactionRun, continues)
    {
      this.compactionRun, this.compactionContinue := compactionRun, continues;
      started, terminal, openCompaction, compactionOpened := false, false, 0, false;
      compactions, diagnostics := map[], [];
    }

    method CompactionEvent(k: Kind)
      modifies this
      ensures View() == AfterEvent(old(View()), k)
    {
      match k
      case CompactionStarted(id, reason) =>
        if compactionRun != reason.Requested? {
          diagnostics := diagnostics + [RunMismatch];
        }
        if openCompaction != 0 {
          diagnostics := diagnostics + [Unpaired];
          return;
        }
        if id in compactions {
          diagnostics := diagnostics + [Unpaired];
          return;
        }
        openCompaction := id;
        compactionOpened := true;
        compactions := compactions[id := CompactionTrack(reason, None)];
      case CompactionEnded(id, outcome, withError) =>
        if outcome.OutcomeFailed? && !withError {
          diagnostics := diagnostics + [FailedWithoutError];
        }
        if id !in compactions || openCompaction != id {
          diagnostics := diagnostics + [EndedWithoutStart];
          return;
        }
        compactions := compactions[id := compactions[id].(outcome := Some(outcome))];
        openCompaction := 0;
      case _ =>
    }

    method CompactionOpening(k: Kind)
      modifies this
      ensures View() == AfterOpening(old(View()), k)
    {
      if !compactionRun || !started || compactionOpened || Terminal(k) {
        return;
      }
      if k.RunStarted? || k.CompactionStarted? {
        return;
      }
      diagnostics := diagnostics + [RunMismatch];
    }

    method CompactionTerminal(k: Kind)
      requires Terminal(k)
      modifies this
      ensures View() == AfterTerminal(old(View()), k)
    {
      if openCompaction != 0 {
        diagnostics := diagnostics + [OpenAtTerminal];
      }
      if !compactionRun || !started {
        return;
      }
      if |compactions| != 1 {
        diagnostics := diagnostics + [RunMismatch];
        return;
      }
      if compactionContinue || !k.RunCompleted? {
        return;
      }
      var todo := compactions.Keys;
      while todo != {}
        invariant todo <= compactions.Keys
        invariant forall id | id in compactions.Keys - todo :: compactions[id].outcome == Some(OutcomeCompleted)
        invariant View() == var c := old(View()); if c.open != 0 then Noted(c, OpenAtTerminal) else c
        decreases |todo|
      {
        var id :| id in todo;
        if compactions[id].outcome != Some(OutcomeCompleted) {
          return;
        }
        todo := todo - {id};
      }
      if k.stop != "compacted" {
        diagnostics := diagnostics + [StopReasonMismatch];
      }
    }

    method RunEvent(k: Kind)
      modifies this
      ensures View() == Observe(old(View()), k)
    {
      hide AfterEvent, AfterOpening, AfterTerminal;
      if terminal {
        return;
      }
      NoneToApply(View(), k);
      if k.CompactionStarted? || k.CompactionEnded? {
        CompactionEvent(k);
      }
      NoneToApply(View(), k);
      CompactionOpening(k);
      NoneToApply(View(), k);
      if Terminal(k) {
        CompactionTerminal(k);
      }
      if k.RunStarted? {
        started := true;
      }
      terminal := Terminal(k);
    }
  }

  lemma {:induction false} NoneToApply(c: Check, k: Kind)
    ensures !k.CompactionStarted? && !k.CompactionEnded? ==> AfterEvent(c, k) == c
    ensures !Terminal(k) ==> AfterTerminal(c, k) == c
    ensures AfterEvent(c, k).started == c.started && AfterOpening(c, k).started == c.started
    ensures AfterTerminal(c, k).started == c.started
  {
  }

  // ------------------------------------------------------------ what silence means

  /** Where the one compaction of a silent compaction run must be. */
  ghost predicate Opening(ks: seq<Kind>, c: Check) {
    && (c.begun ==> |ks| >= 2 && ks[1].CompactionStarted? && c.tracks.Keys >= {ks[1].compaction})
    && (!c.begun ==> c.tracks == map[])
    && (forall i | 0 <= i < |ks| && ks[i].CompactionStarted? ::
          ks[i].reason.Requested? && ks[i].compaction in c.tracks)
    && (forall i, j | 0 <= i < j < |ks| && ks[i].CompactionStarted? && ks[j].CompactionStarted? ::
          ks[i].compaction != ks[j].compaction)
  }

  lemma {:induction false} SilentStep(c: Check, k: Kind)
    requires c.compactionRun && !c.terminal && Observe(c, k).diagnostics == []
    ensures var c' := Observe(c, k);
      if k.CompactionStarted? then
        k.reason.Requested? && k.compaction !in c.tracks && c'.begun && c'.tracks.Keys == c.tracks.Keys + {k.compaction}
      else c'.begun == c.begun && c'.tracks.Keys == c.tracks.Keys
    ensures c.started && !c.begun ==> Terminal(k) || k.RunStarted? || k.CompactionStarted?
    ensures c.diagnostics == []
  {
  }

  lemma {:induction false} OpeningSnoc(ks: seq<Kind>, k: Kind, c: Check, c': Check)
    requires Opening(ks, c)
    requires if k.CompactionStarted? then
        k.reason.Requested? && k.compaction !in c.tracks && c'.begun && c'.tracks.Keys == c.tracks.Keys + {k.compaction}
      else c'.begun == c.begun && c'.tracks.Keys == c.tracks.Keys
    requires k.CompactionStarted? && !c.begun ==> |ks| == 1
    ensures Opening(ks + [k], c')
  {
  }

  lemma {:induction false} SilentFlags(continues: bool, ks: seq<Kind>)
    requires TrackOf(ks).Some? && CheckOf(true, continues, ks).diagnostics == []
    ensures var c, t := CheckOf(true, continues, ks), TrackOf(ks).value;
      c.compactionRun && c.started == t.started && c.terminal == t.terminal
    ensures var c := CheckOf(true, continues, ks); !c.begun && c.started && !c.terminal ==> |ks| == 1
    decreases |ks|
  {
    if ks != [] {
      var front, k := ks[..|ks| - 1], ks[|ks| - 1];
      var c := CheckOf(true, continues, front);
      assert Grows(c, Observe(c, k));
      SilentFlags(continues, front);
      TrackFlags(front);
      SilentStep(c, k);
    }
  }

  lemma {:induction false} SilentFront(continues: bool, ks: seq<Kind>)
    requires ks != [] && TrackOf(ks).Some? && CheckOf(true, continues, ks).diagnostics == []
    ensures var front, k := ks[..|ks| - 1], ks[|ks| - 1];
      && TrackOf(front).Some? && !TrackOf(front).value.terminal && (k.CompactionStarted? ==> TrackOf(front).value.started)
      && CheckOf(true, continues, front).diagnostics == []
      && CheckOf(true, continues, ks) == Observe(CheckOf(true, continues, front), k)
  {
    assert Grows(CheckOf(true, continues, ks[..|ks| - 1]), CheckOf(true, continues, ks));
  }

  lemma {:induction false} SilentOpening(continues: bool, ks: seq<Kind>)
    requires TrackOf(ks).Some? && CheckOf(true, continues, ks).diagnostics == []
    ensures Opening(ks, CheckOf(true, continues, ks))
    decreases |ks|
  {
    if ks != [] {
      hide Observe, Opening, CheckOf, TrackOf, Grows;
      var front, k := ks[..|ks| - 1], ks[|ks| - 1];
      var c := CheckOf(true, continues, front);
      SilentFront(continues, ks);
      SilentFlags(continues, front);
      SilentOpening(continues, front);
      SilentStep(c, k);
      OpeningSnoc(front, k, c, Observe(c, k));
      assert ks == front + [k];
    }
  }

  /** A run admitted by a compaction request that starts, settles and draws no diagnostic
      holds exactly one compaction, which it was asked for, right after run.started. */
  lemma {:induction false} SilenceMeansOneCompaction(continues: bool, ks: seq<Kind>)
    requires TrackOf(ks).Some? && TrackOf(ks).value.terminal && TrackOf(ks).value.started
    requires CheckOf(true, continues, ks).diagnostics == []
    ensures |ks| >= 3 && ks[1].CompactionStarted? && ks[1].reason.Requested?
    ensures forall i | 0 <= i < |ks| && ks[i].CompactionStarted? :: i == 1
  {
    SilentOpening(continues, ks);
    SilentFlags(continues, ks);
    var front, k := ks[..|ks| - 1], ks[|ks| - 1];
    var c := CheckOf(true, continues, front);
    assert Grows(c, Observe(c, k));
    SilentFlags(continues, front);
    SilentOpening(continues, front);
    TrackFlags(ks);
    TrackFlags(front);
    assert |c.tracks| == 1;
    var id :| id in c.tracks;
    assert c.tracks.Keys == {id} by {
      assert |c.tracks.Keys - {id}| == 0;
    }
    assert ks[1] == front[1];
    forall i | 0 <= i < |ks| && ks[i].CompactionStarted?
      ensures i == 1
    {
      assert ks[i] == front[i];
      assert front[i].compaction == id && front[1].compaction == id;
    }
  }

  lemma {:induction false} FlagsAgree(compactionRun: bool, continues: bool, ks: seq<Kind>)
    requires TrackOf(ks).Some?
    ensures var c, t := CheckOf(compactionRun, continues, ks), TrackOf(ks).value;
      && c.compactionRun == compactionRun && c.continues == continues && c.started == t.started && c.terminal == t.terminal
    decreases |ks|
  {
    hide Observe, Advance;
    if ks != [] {
      var front, k := ks[..|ks| - 1], ks[|ks| - 1];
      FlagsAgree(compactionRun, continues, front);
      AdvanceFlags(TrackOf(front).value, k);
      ObserveFlags(CheckOf(compactionRun, continues, front), k);
    }
  }

  /** A silent run that no compaction request admitted holds no requested compaction. */
  lemma {:induction false} SilenceMeansNoneRequested(continues: bool, ks: seq<Kind>)
    requires TrackOf(ks).Some? && CheckOf(false, continues, ks).diagnostics == []
    ensures forall i | 0 <= i < |ks| && ks[i].CompactionStarted? :: !ks[i].reason.Requested?
    decreases |ks|
  {
    if ks != [] {
      var front, k := ks[..|ks| - 1], ks[|ks| - 1];
      FlagsAgree(false, continues, front);
      assert Grows(CheckOf(false, continues, front), CheckOf(false, continues, ks));
      SilenceMeansNoneRequested(continues, front);
      assert k.CompactionStarted? ==> !k.reason.Requested?;
    }
  }

  predicate EndsCompleted(ks: seq<Kind>) {
    forall i | 0 <= i < |ks| && ks[i].CompactionEnded? :: ks[i].outcome.OutcomeCompleted?
  }

  /** Every compaction the checker knows of is the open one or was completed. */
  ghost predicate Ended(c: Check) {
    forall id | id in c.tracks :: if id == c.open then c.tracks[id].outcome.None? else c.tracks[id].outcome == Some(OutcomeCompleted)
  }

  lemma {:induction false} EndedStep(c: Check, k: Kind)
    requires Ended(c) && !c.terminal && Observe(c, k).diagnostics == []
    requires k.CompactionEnded? ==> k.outcome.OutcomeCompleted?
    requires (k.CompactionStarted? || k.CompactionEnded?) ==> k.compaction != 0
    requires 0 !in c.tracks
    ensures Ended(Observe(c, k)) && 0 !in Observe(c, k).tracks
  {
  }

  lemma {:induction false} SilentTracks(compactionRun: bool, continues: bool, ks: seq<Kind>)
    requires TrackOf(ks).Some? && CheckOf(compactionRun, continues, ks).diagnostics == [] && EndsCompleted(ks)
    ensures Ended(CheckOf(compactionRun, continues, ks)) && 0 !in CheckOf(compactionRun, continues, ks).tracks
    decreases |ks|
  {
    if ks != [] {
      var front, k := ks[..|ks| - 1], ks[|ks| - 1];
      var c := CheckOf(compactionRun, continues, front);
      FlagsAgree(compactionRun, continues, front);
      assert Grows(c, Observe(c, k));
      SilentTracks(compactionRun, continues, front);
      EndedStep(c, k);
    }
  }

  /** A silent run admitted to compact and not go on, whose compactions were completed, stops with
      "compacted" if it completes. */
  lemma {:induction false} SilenceMeansCompacted(ks: seq<Kind>)
    requires TrackOf(ks).Some? && TrackOf(ks).value.terminal && TrackOf(ks).value.started && EndsCompleted(ks)
    requires CheckOf(true, false, ks).diagnostics == [] && ks != [] && ks[|ks| - 1].RunCompleted?
    ensures ks[|ks| - 1].stop == "compacted"
  {
    var front, k := ks[..|ks| - 1], ks[|ks| - 1];
    var c := CheckOf(true, false, front);
    FlagsAgree(true, false, front);
    assert Grows(c, Observe(c, k));
    SilentTracks(true, false, front);
    SilentStop(c, k);
  }

  lemma {:induction false} SilentStop(c: Check, k: Kind)
    requires c.compactionRun && !c.continues && c.started && !c.terminal && k.RunCompleted?
    requires Ended(c) && 0 !in c.tracks && Observe(c, k).diagnostics == []
    ensures k.stop == "compacted"
  {
    assert AllCompleted(c.tracks);
  }
}
