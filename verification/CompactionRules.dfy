/** When the checker is silent: the rules a run's compactions must obey, said of its events alone. */
module CompactionRules {
  import opened Basics
  import opened RunEvents
  import opened CompactionChecker

  /** Every compaction is started for a reason that fits the run, and under an id of its own. */
  predicate StartsFit(run: bool, ks: seq<Kind>) {
    && (forall i | 0 <= i < |ks| && ks[i].CompactionStarted? :: ks[i].reason.Requested? == run)
    && forall i, j | 0 <= i < j < |ks| && ks[i].CompactionStarted? && ks[j].CompactionStarted? ::
         ks[i].compaction != ks[j].compaction
  }

  /** A compaction that failed says why. */
  predicate FailuresExplained(ks: seq<Kind>) {
    forall i | 0 <= i < |ks| && ks[i].CompactionEnded? && ks[i].outcome.OutcomeFailed? :: ks[i].withError
  }

  /** A run asked to compact does so first. */
  predicate CompactsFirst(run: bool, ks: seq<Kind>) {
    run && |ks| >= 2 && ks[0].RunStarted? ==> Terminal(ks[1]) || ks[1].CompactionStarted?
  }

  ghost predicate OneStart(ks: seq<Kind>) {
    exists i :: 0 <= i < |ks| && ks[i].CompactionStarted? && forall j | 0 <= j < |ks| && ks[j].CompactionStarted? :: j == i
  }

  /** A run asked to compact that has settled compacted once, and if it was not to go on and its compaction
      was completed, it completed as compacted. */
  ghost predicate SettlesCompacted(run: bool, continues: bool, ks: seq<Kind>) {
    run && ks != [] && ks[0].RunStarted? && Terminal(ks[|ks| - 1]) ==>
      && OneStart(ks)
      && (!continues && ks[|ks| - 1].RunCompleted? && EndsCompleted(ks) ==> ks[|ks| - 1].stop == "compacted")
  }

  ghost predicate WellCompacted(run: bool, continues: bool, ks: seq<Kind>) {
    StartsFit(run, ks) && FailuresExplained(ks) && CompactsFirst(run, ks) && SettlesCompacted(run, continues, ks)
  }

  // ------------------------------------------------------------ the checker's tracks

  function StartIDs(ks: seq<Kind>): set<nat> {
    set i | 0 <= i < |ks| && ks[i].CompactionStarted? :: ks[i].compaction
  }

  /** What a silent checker knows of the events so far. */
  ghost predicate Knows(run: bool, continues: bool, ks: seq<Kind>, t: Track, c: Check) {
    && c.compactionRun == run && c.continues == continues && c.started == t.started && c.terminal == t.terminal
    && c.open == t.compaction && c.tracks.Keys == StartIDs(ks) && (c.begun <==> StartIDs(ks) != {}) && 0 !in c.tracks
    && (forall id | id in c.tracks :: id == c.open <==> c.tracks[id].outcome.None?)
    && (AllCompleted(c.tracks) <==> c.open == 0 && EndsCompleted(ks))
    && (c.open != 0 ==> c.open in c.tracks)
    && (EndsCompleted(ks) <==> forall id | id in c.tracks && id != c.open :: c.tracks[id].outcome == Some(OutcomeCompleted))
  }

  lemma {:induction false} StartIDsSnoc(ks: seq<Kind>, k: Kind)
    ensures StartIDs(ks + [k]) == StartIDs(ks) + if k.CompactionStarted? then {k.compaction} else {}
  {
    var all := ks + [k];
    assert forall i | 0 <= i < |ks| :: all[i] == ks[i];
    assert all[|ks|] == k;
    forall x
      ensures x in StartIDs(all) <==> x in StartIDs(ks) + if k.CompactionStarted? then {k.compaction} else {}
    {
      if x in StartIDs(ks) {
        var i :| 0 <= i < |ks| && ks[i].CompactionStarted? && ks[i].compaction == x;
        assert all[i].CompactionStarted? && all[i].compaction == x;
      }
    }
  }

  lemma {:induction false} EndsSnoc(ks: seq<Kind>, k: Kind)
    ensures EndsCompleted(ks + [k]) <==> EndsCompleted(ks) && (k.CompactionEnded? ==> k.outcome.OutcomeCompleted?)
  {
    var all := ks + [k];
    assert forall i | 0 <= i < |ks| :: all[i] == ks[i];
    assert all[|ks|] == k;
  }

  lemma {:induction false} StartsSnoc(run: bool, ks: seq<Kind>, k: Kind)
    ensures StartsFit(run, ks + [k]) <==>
      StartsFit(run, ks) && (k.CompactionStarted? ==> k.reason.Requested? == run && k.compaction !in StartIDs(ks))
    ensures FailuresExplained(ks + [k]) <==>
      FailuresExplained(ks) && (k.CompactionEnded? && k.outcome.OutcomeFailed? ==> k.withError)
  {
    var all, n := ks + [k], |ks|;
    assert forall i | 0 <= i < n :: all[i] == ks[i];
    assert all[n] == k;
  }

  lemma {:induction false} NoStarts(ks: seq<Kind>)
    ensures StartIDs(ks) == {} <==> forall i | 0 <= i < |ks| :: !ks[i].CompactionStarted?
  {
    if StartIDs(ks) != {} {
      var x :| x in StartIDs(ks);
    } else {
      assert forall i | 0 <= i < |ks| && ks[i].CompactionStarted? :: ks[i].compaction in StartIDs(ks);
    }
  }

  /** One start is one id, when starts are told apart. */
  lemma {:induction false} OneStartID(run: bool, ks: seq<Kind>)
    requires StartsFit(run, ks)
    ensures |StartIDs(ks)| == 1 <==> OneStart(ks)
  {
    if |StartIDs(ks)| == 1 {
      var x :| x in StartIDs(ks);
      assert |StartIDs(ks) - {x}| == 0;
      var i :| 0 <= i < |ks| && ks[i].CompactionStarted? && ks[i].compaction == x;
      forall j | 0 <= j < |ks| && ks[j].CompactionStarted?
        ensures j == i
      {
        assert ks[j].compaction in StartIDs(ks) && ks[j].compaction !in StartIDs(ks) - {x};
      }
    }
    if OneStart(ks) {
      var i :| 0 <= i < |ks| && ks[i].CompactionStarted? && forall j | 0 <= j < |ks| && ks[j].CompactionStarted? :: j == i;
      assert StartIDs(ks) == {ks[i].compaction};
    }
  }

  // ------------------------------------------------------------ one more event

  /** An event the rules allow after others. */
  ghost predicate Allows(run: bool, continues: bool, ks: seq<Kind>, t: Track, k: Kind) {
    && (k.CompactionStarted? ==> k.reason.Requested? == run && k.compaction !in StartIDs(ks))
    && (k.CompactionEnded? && k.outcome.OutcomeFailed? ==> k.withError)
    && (run && t.started && StartIDs(ks) == {} ==> Terminal(k) || k.CompactionStarted?)
    && (run && t.started && Terminal(k) ==>
          |StartIDs(ks)| == 1 && (!continues && k.RunCompleted? && EndsCompleted(ks) ==> k.stop == "compacted"))
  }

  lemma {:induction false} SilentStart(run: bool, continues: bool, ks: seq<Kind>, t: Track, c: Check, k: Kind)
    requires Knows(run, continues, ks, t, c) && c.diagnostics == [] && Advance(t, k).Some? && k.CompactionStarted?
    ensures Observe(c, k).diagnostics == [] <==> Allows(run, continues, ks, t, k)
  {
    hide StartIDs, EndsCompleted, AllCompleted;
  }

  lemma {:induction false} SilentEnd(run: bool, continues: bool, ks: seq<Kind>, t: Track, c: Check, k: Kind)
    requires Knows(run, continues, ks, t, c) && c.diagnostics == [] && Advance(t, k).Some? && k.CompactionEnded?
    ensures Observe(c, k).diagnostics == [] <==> Allows(run, continues, ks, t, k)
  {
    hide StartIDs, EndsCompleted, AllCompleted;
    assert k.compaction in c.tracks && k.compaction in StartIDs(ks);
  }

  lemma {:induction false} SilentTerminal(run: bool, continues: bool, ks: seq<Kind>, t: Track, c: Check, k: Kind)
    requires Knows(run, continues, ks, t, c) && c.diagnostics == [] && Advance(t, k).Some? && Terminal(k)
    requires !t.started ==> t.compaction == 0
    ensures Observe(c, k).diagnostics == [] <==> Allows(run, continues, ks, t, k)
  {
    hide StartIDs, EndsCompleted, AllCompleted;
    assert |c.tracks| == |c.tracks.Keys|;
    TerminalShut(t, k);
    AdvanceFlags(t, k);
    hide Advance;
  }

  lemma {:induction false} SilentOther(run: bool, continues: bool, ks: seq<Kind>, t: Track, c: Check, k: Kind)
    requires Knows(run, continues, ks, t, c) && c.diagnostics == [] && Advance(t, k).Some?
    requires !Terminal(k) && !k.CompactionStarted? && !k.CompactionEnded?
    ensures Observe(c, k).diagnostics == [] <==> Allows(run, continues, ks, t, k)
  {
    hide StartIDs, EndsCompleted, AllCompleted;
    AdvanceFlags(t, k);
    if k.RunStarted? {
      StartedOnce(t, k);
    }
    hide Advance;
  }

  lemma {:induction false} StartedOnce(t: Track, k: Kind)
    requires Advance(t, k).Some? && k.RunStarted?
    ensures !t.started
  {
  }

  /** A silent checker stays silent exactly when the rules allow the event. */
  lemma {:induction false} SilentExactly(run: bool, continues: bool, ks: seq<Kind>, t: Track, c: Check, k: Kind)
    requires Knows(run, continues, ks, t, c) && c.diagnostics == [] && Advance(t, k).Some? && (!t.started ==> t.compaction == 0)
    ensures Observe(c, k).diagnostics == [] <==> Allows(run, continues, ks, t, k)
  {
    hide Observe, Allows, Knows, Advance;
    if Terminal(k) {
      SilentTerminal(run, continues, ks, t, c, k);
    } else if k.CompactionStarted? {
      SilentStart(run, continues, ks, t, c, k);
    } else if k.CompactionEnded? {
      SilentEnd(run, continues, ks, t, c, k);
    } else {
      SilentOther(run, continues, ks, t, c, k);
    }
  }

  lemma {:induction false} TerminalShut(t: Track, k: Kind)
    requires Advance(t, k).Some? && Terminal(k)
    ensures t.started ==> t.compaction == 0
  {
  }

  lemma {:induction false} KnowsStart(run: bool, continues: bool, ks: seq<Kind>, t: Track, c: Check, k: Kind)
    requires Knows(run, continues, ks, t, c) && c.diagnostics == [] && Advance(t, k).Some? && k.CompactionStarted?
    requires Observe(c, k).diagnostics == []
    ensures Knows(run, continues, ks + [k], Advance(t, k).value, Observe(c, k))
  {
    hide StartIDs, EndsCompleted;
    StartIDsSnoc(ks, k);
    EndsSnoc(ks, k);
    var c' := Observe(c, k);
    assert c'.tracks == c.tracks[k.compaction := CompactionTrack(k.reason, None)] && c'.open == k.compaction;
    assert c'.tracks[k.compaction].outcome.None?;
    assert forall id | id in c.tracks :: id in c'.tracks && c'.tracks[id] == c.tracks[id];
  }

  lemma {:induction false} KnowsEnd(run: bool, continues: bool, ks: seq<Kind>, t: Track, c: Check, k: Kind)
    requires Knows(run, continues, ks, t, c) && c.diagnostics == [] && Advance(t, k).Some? && k.CompactionEnded?
    requires Observe(c, k).diagnostics == []
    ensures Knows(run, continues, ks + [k], Advance(t, k).value, Observe(c, k))
  {
    hide StartIDs, EndsCompleted;
    StartIDsSnoc(ks, k);
    EndsSnoc(ks, k);
    var c', id := Observe(c, k), k.compaction;
    assert c'.tracks == c.tracks[id := c.tracks[id].(outcome := Some(k.outcome))] && c'.open == 0 && c.open == id;
    assert c'.tracks[id].outcome == Some(k.outcome);
    assert forall o | o in c.tracks && o != id :: c'.tracks[o] == c.tracks[o];
  }

  lemma {:induction false} KnowsNext(run: bool, continues: bool, ks: seq<Kind>, t: Track, c: Check, k: Kind)
    requires Knows(run, continues, ks, t, c) && c.diagnostics == [] && Advance(t, k).Some?
    requires Observe(c, k).diagnostics == []
    ensures Knows(run, continues, ks + [k], Advance(t, k).value, Observe(c, k))
  {
    hide Knows, Advance, Observe;
    if k.CompactionStarted? {
      KnowsStart(run, continues, ks, t, c, k);
    } else if k.CompactionEnded? {
      KnowsEnd(run, continues, ks, t, c, k);
    } else {
      KnowsOther(run, continues, ks, t, c, k);
    }
  }

  lemma {:induction false} TracksStay(c: Check, t: Track, k: Kind)
    requires !k.CompactionStarted? && !k.CompactionEnded? && !c.terminal && Observe(c, k).diagnostics == [] && Advance(t, k).Some?
    ensures var c' := Observe(c, k); c'.tracks == c.tracks && c'.open == c.open && c'.begun == c.begun
    ensures Advance(t, k).value.compaction == t.compaction
  {
  }

  lemma {:induction false} KnowsOther(run: bool, continues: bool, ks: seq<Kind>, t: Track, c: Check, k: Kind)
    requires Knows(run, continues, ks, t, c) && c.diagnostics == [] && Advance(t, k).Some?
    requires !k.CompactionStarted? && !k.CompactionEnded? && Observe(c, k).diagnostics == []
    ensures Knows(run, continues, ks + [k], Advance(t, k).value, Observe(c, k))
  {
    hide StartIDs, EndsCompleted, AllCompleted, Observe, Advance;
    StartIDsSnoc(ks, k);
    EndsSnoc(ks, k);
    AdvanceFlags(t, k);
    ObserveFlags(c, k);
    TracksStay(c, t, k);
  }

  // ------------------------------------------------------------ whole traces

  lemma {:induction false} FirstSnoc(run: bool, ks: seq<Kind>, k: Kind)
    ensures CompactsFirst(run, ks + [k]) <==>
      CompactsFirst(run, ks) && (run && |ks| == 1 && ks[0].RunStarted? ==> Terminal(k) || k.CompactionStarted?)
  {
    var all := ks + [k];
    assert forall i | 0 <= i < |ks| :: all[i] == ks[i];
    assert all[|ks|] == k;
  }

  /** Until a run asked to compact has compacted, it has only started. */
  lemma {:induction false} OnlyStarted(run: bool, ks: seq<Kind>)
    requires run && CompactsFirst(run, ks) && ks != [] && ks[0].RunStarted? && StartIDs(ks) == {}
    requires forall i | 0 <= i < |ks| :: !Terminal(ks[i])
    ensures |ks| == 1
  {
    NoStarts(ks);
  }

  lemma {:induction false} SettlesSnoc(run: bool, continues: bool, ks: seq<Kind>, t: Track, k: Kind)
    requires TrackOf(ks) == Some(t) && Advance(t, k).Some? && StartsFit(run, ks)
    ensures SettlesCompacted(run, continues, ks)
    ensures SettlesCompacted(run, continues, ks + [k]) <==>
      (run && t.started && Terminal(k) ==>
        |StartIDs(ks)| == 1 && (!continues && k.RunCompleted? && EndsCompleted(ks) ==> k.stop == "compacted"))
  {
    hide OneStart, EndsCompleted, StartsFit, StartIDs;
    var all := ks + [k];
    TrackFlags(ks);
    AdvanceFlags(t, k);
    OneStartID(run, ks);
    if Terminal(k) {
      StartsSame(ks, k);
    }
    assert all[|ks|] == k && forall i | 0 <= i < |ks| :: all[i] == ks[i];
  }

  /** The rules over the events before the last, and of the last. */
  lemma {:induction false} WellCompactedSnoc(run: bool, continues: bool, ks: seq<Kind>, t: Track, k: Kind)
    requires TrackOf(ks) == Some(t) && Advance(t, k).Some?
    ensures WellCompacted(run, continues, ks + [k]) <==> WellCompacted(run, continues, ks) && Allows(run, continues, ks, t, k)
  {
    hide EndsCompleted, StartsFit, FailuresExplained, SettlesCompacted, CompactsFirst, StartIDs;
    StartsSnoc(run, ks, k);
    TrackFlags(ks);
    AdvanceFlags(t, k);
    FirstSnoc(run, ks, k);
    if StartsFit(run, ks) {
      SettlesSnoc(run, continues, ks, t, k);
    }
    if run && t.started && StartIDs(ks) == {} && CompactsFirst(run, ks) {
      OnlyStarted(run, ks);
    }
    if |ks| == 1 {
      NoStarts(ks);
    }
  }

  lemma {:induction false} StartsSame(ks: seq<Kind>, k: Kind)
    requires Terminal(k)
    ensures OneStart(ks + [k]) <==> OneStart(ks)
    ensures EndsCompleted(ks + [k]) <==> EndsCompleted(ks)
  {
    var all := ks + [k];
    assert forall i | 0 <= i < |ks| :: all[i] == ks[i];
    assert all[|ks|] == k;
    if OneStart(ks) {
      var i :| 0 <= i < |ks| && ks[i].CompactionStarted? && forall j | 0 <= j < |ks| && ks[j].CompactionStarted? :: j == i;
      assert all[i].CompactionStarted?;
    }
    if OneStart(all) {
      var i :| 0 <= i < |all| && all[i].CompactionStarted? && forall j | 0 <= j < |all| && all[j].CompactionStarted? :: j == i;
      assert ks[i].CompactionStarted?;
    }
  }

  lemma {:induction false} SilentKnows(run: bool, continues: bool, ks: seq<Kind>)
    requires TrackOf(ks).Some?
    ensures CheckOf(run, continues, ks).diagnostics == [] <==> WellCompacted(run, continues, ks)
    ensures CheckOf(run, continues, ks).diagnostics == [] ==>
      Knows(run, continues, ks, TrackOf(ks).value, CheckOf(run, continues, ks))
    decreases |ks|
  {
    hide Observe, Advance, WellCompacted, Allows, Knows;
    if ks == [] {
      NothingKnown(run, continues, ks);
    } else {
      var front, k := ks[..|ks| - 1], ks[|ks| - 1];
      assert ks == front + [k];
      SilentKnows(run, continues, front);
      var t, c := TrackOf(front).value, CheckOf(run, continues, front);
      WellCompactedSnoc(run, continues, front, t, k);
      assert Grows(c, Observe(c, k));
      if c.diagnostics == [] {
        Unstarted(front);
        SilentExactly(run, continues, front, t, c, k);
        if Observe(c, k).diagnostics == [] {
          KnowsNext(run, continues, front, t, c, k);
        }
      }
    }
  }

  lemma {:induction false} Unstarted(ks: seq<Kind>)
    requires TrackOf(ks).Some?
    ensures !TrackOf(ks).value.started ==> TrackOf(ks).value.compaction == 0
  {
    TrackFlags(ks);
    if ks == [RunCancelled] {
      assert ks[..0] == [];
      assert TrackOf(ks[..0]) == Some(UNSEEN);
    }
  }

  lemma {:induction false} NothingWrong(run: bool, continues: bool, ks: seq<Kind>)
    requires |ks| == 0
    ensures WellCompacted(run, continues, ks) && StartIDs(ks) == {} && EndsCompleted(ks)
  {
  }

  lemma {:induction false} NothingKnown(run: bool, continues: bool, ks: seq<Kind>)
    requires |ks| == 0
    ensures WellCompacted(run, continues, ks) && Knows(run, continues, ks, UNSEEN, Fresh(run, continues))
  {
    NothingWrong(run, continues, ks);
    hide WellCompacted, StartIDs, EndsCompleted;
  }

  /** Of the events of any run the protocol accepts, the checker reports nothing if and only if every
      compaction is started for a reason that fits the run and under an id of its own, every failure is
      explained, and a run asked to compact does so first, once, and settles as compacted. */
  lemma {:induction false} SilentIffWellCompacted(run: bool, continues: bool, ks: seq<Kind>)
    requires TrackOf(ks).Some?
    ensures CheckOf(run, continues, ks).diagnostics == [] <==> WellCompacted(run, continues, ks)
  {
    hide Observe, Advance, WellCompacted;
    SilentKnows(run, continues, ks);
  }

  /** The mistakes of an event after events that had none. */
  ghost predicate Mistaken(run: bool, continues: bool, ks: seq<Kind>, t: Track, k: Kind, code: Code) {
    match code
    case RunMismatch =>
      || (k.CompactionStarted? && k.reason.Requested? != run)
      || (run && t.started && StartIDs(ks) == {} && !Terminal(k) && !k.CompactionStarted?)
      || (run && t.started && Terminal(k) && |StartIDs(ks)| != 1)
    case Unpaired => k.CompactionStarted? && k.compaction in StartIDs(ks)
    case FailedWithoutError => k.CompactionEnded? && k.outcome.OutcomeFailed? && !k.withError
    case StopReasonMismatch =>
      && run && t.started && Terminal(k) && |StartIDs(ks)| == 1
      && !continues && k.RunCompleted? && EndsCompleted(ks) && k.stop != "compacted"
    case _ => false
  }

  lemma {:induction false} NamesStart(run: bool, continues: bool, ks: seq<Kind>, t: Track, c: Check, k: Kind, code: Code)
    requires Knows(run, continues, ks, t, c) && c.diagnostics == [] && Advance(t, k).Some?
    requires k.CompactionStarted? || k.CompactionEnded?
    ensures code in Observe(c, k).diagnostics <==> Mistaken(run, continues, ks, t, k, code)
  {
    hide StartIDs, EndsCompleted, AllCompleted;
    assert k.CompactionEnded? ==> k.compaction in c.tracks && k.compaction in StartIDs(ks);
  }

  lemma {:induction false} NamesTerminal(run: bool, continues: bool, ks: seq<Kind>, t: Track, c: Check, k: Kind, code: Code)
    requires Knows(run, continues, ks, t, c) && c.diagnostics == [] && Advance(t, k).Some? && Terminal(k)
    requires !t.started ==> t.compaction == 0
    ensures code in Observe(c, k).diagnostics <==> Mistaken(run, continues, ks, t, k, code)
  {
    hide StartIDs, EndsCompleted, AllCompleted;
    assert |c.tracks| == |c.tracks.Keys|;
    TerminalShut(t, k);
    AdvanceFlags(t, k);
    hide Advance;
  }

  lemma {:induction false} NamesOther(run: bool, continues: bool, ks: seq<Kind>, t: Track, c: Check, k: Kind, code: Code)
    requires Knows(run, continues, ks, t, c) && c.diagnostics == [] && Advance(t, k).Some?
    requires !Terminal(k) && !k.CompactionStarted? && !k.CompactionEnded?
    ensures code in Observe(c, k).diagnostics <==> Mistaken(run, continues, ks, t, k, code)
  {
    hide StartIDs, EndsCompleted, AllCompleted;
    AdvanceFlags(t, k);
    if k.RunStarted? {
      StartedOnce(t, k);
    }
    hide Advance;
  }

  /** The first event the checker reports is reported for its own mistakes, all of them and no other. */
  lemma {:induction false} MistakesNamed(run: bool, continues: bool, ks: seq<Kind>, k: Kind, code: Code)
    requires TrackOf(ks + [k]).Some? && TrackOf(ks).Some? && CheckOf(run, continues, ks).diagnostics == []
    ensures code in CheckOf(run, continues, ks + [k]).diagnostics <==> Mistaken(run, continues, ks, TrackOf(ks).value, k, code)
  {
    hide Observe, Mistaken, Knows, Advance, CheckOf, TrackOf;
    SilentKnows(run, continues, ks);
    CheckSnoc(run, continues, ks, k);
    TrackSnoc(ks, k);
    Unstarted(ks);
    var t, c := TrackOf(ks).value, CheckOf(run, continues, ks);
    if Terminal(k) {
      NamesTerminal(run, continues, ks, t, c, k, code);
    } else if k.CompactionStarted? || k.CompactionEnded? {
      NamesStart(run, continues, ks, t, c, k, code);
    } else {
      NamesOther(run, continues, ks, t, c, k, code);
    }
  }
}
