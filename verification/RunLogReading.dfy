/** What the open runs of a log are, said of its records alone: which of them count, which runs
    they leave open, and what each open run takes from which record. */
module RunLogReading {
  import opened RunLog

  predicate Of(r: RunRecord, sid: string, id: string) {
    r.sessionID == sid && r.runID == id
  }

  /** A record of the session counts unless its run had ended by then. */
  ghost predicate Counts(rs: seq<RunRecord>, sid: string, i: nat)
    requires i < |rs|
    decreases i, 1
  {
    rs[i].sessionID == sid && !EndedBy(rs, sid, rs[i].runID, i)
  }

  /** A run has ended when a record that counts settles it or is an admission in its place. */
  ghost predicate EndedBy(rs: seq<RunRecord>, sid: string, id: string, n: nat)
    requires n <= |rs|
    decreases n, 0
  {
    exists i | 0 <= i < n :: Counts(rs, sid, i) && Ends(rs[i], id)
  }

  predicate Ends(r: RunRecord, id: string) {
    (r.action.Settled? && r.runID == id) || (r.action.Admitted? && r.replaced == id != "")
  }

  function FirstFrom(rs: seq<RunRecord>, sid: string, id: string, i: nat): nat
    decreases |rs| - i
  {
    if i >= |rs| || Of(rs[i], sid, id) then i else FirstFrom(rs, sid, id, i + 1)
  }

  /** Where the session first speaks of a run, or at least the length of the log. */
  function First(rs: seq<RunRecord>, sid: string, id: string): nat {
    FirstFrom(rs, sid, id, 0)
  }

  ghost predicate OpenAt(rs: seq<RunRecord>, sid: string, id: string, n: nat)
    requires n <= |rs|
  {
    First(rs, sid, id) < n && !EndedBy(rs, sid, id, n)
  }

  /** An admission in the place of a run that is open. */
  ghost predicate TakesOver(rs: seq<RunRecord>, sid: string, i: nat)
    requires i < |rs|
  {
    rs[i].action.Admitted? && rs[i].replaced != "" && OpenAt(rs, sid, rs[i].replaced, i)
  }

  /** The root of the run first spoken of here: its own, that of the run it took over, or itself. */
  ghost function Root(rs: seq<RunRecord>, sid: string, i: nat): string
    requires i < |rs|
  {
    if rs[i].root != "" then rs[i].root
    else if TakesOver(rs, sid, i) then Root(rs, sid, First(rs, sid, rs[i].replaced))
    else rs[i].runID
  }

  /** Where the place of the run first spoken of here came up: here, or with the run it took over. */
  ghost function Place(rs: seq<RunRecord>, sid: string, i: nat): (p: nat)
    requires i < |rs|
    ensures p <= i
  {
    if TakesOver(rs, sid, i) then Place(rs, sid, First(rs, sid, rs[i].replaced)) else i
  }

  /** A request is that of the run's last admission, and empty if it was never admitted. */
  ghost predicate RequestIs(rs: seq<RunRecord>, sid: string, id: string, n: nat, request: string)
    requires n <= |rs|
  {
    if forall j | 0 <= j < n && Of(rs[j], sid, id) :: !rs[j].action.Admitted? then request == ""
    else
      exists j | 0 <= j < n :: Of(rs[j], sid, id) && rs[j].action.Admitted? && rs[j].request == request
        && forall l | j < l < n && Of(rs[l], sid, id) :: !rs[l].action.Admitted?
  }

  /** An open run was admitted when it was first spoken of, is started if some record started it, and
      has the request of its last admission and the root it came with or took over. */
  ghost predicate Tells(rs: seq<RunRecord>, sid: string, n: nat, run: OpenRun)
    requires n <= |rs|
  {
    var i := First(rs, sid, run.runID);
    && i < n && run.admittedMS == rs[i].timeMS && run.root == Root(rs, sid, i)
    && (run.started <==> exists j | 0 <= j < n :: Of(rs[j], sid, run.runID) && rs[j].action.Started?)
    && RequestIs(rs, sid, run.runID, n, run.request)
  }

  predicate Listed(runs: seq<OpenRun>, id: string) {
    exists k :: 0 <= k < |runs| && runs[k].runID == id
  }

  /** The runs listed are the open ones, each told by its records, in the order their places came up. */
  ghost predicate Lists(rs: seq<RunRecord>, sid: string, n: nat, runs: seq<OpenRun>)
    requires n <= |rs|
  {
    && (forall id :: OpenAt(rs, sid, id, n) <==> Listed(runs, id))
    && (forall k | 0 <= k < |runs| :: Tells(rs, sid, n, runs[k]))
    && (forall k, l | 0 <= k < l < |runs| :: InOrder(rs, sid, runs[k].runID, runs[l].runID))
  }

  ghost predicate InOrder(rs: seq<RunRecord>, sid: string, a: string, b: string) {
    var i, j := First(rs, sid, a), First(rs, sid, b);
    i < |rs| && j < |rs| && Place(rs, sid, i) < Place(rs, sid, j)
  }

  /** No record that counts replaces its own run, or an open run under the id of another. */
  ghost predicate Fair(rs: seq<RunRecord>, sid: string, n: nat)
    requires n <= |rs|
  {
    forall i | 0 <= i < n && Counts(rs, sid, i) && rs[i].action.Admitted? && rs[i].replaced != "" ::
      rs[i].runID != rs[i].replaced && !(OpenAt(rs, sid, rs[i].replaced, i) && OpenAt(rs, sid, rs[i].runID, i))
  }

  // ------------------------------------------------------------ first records

  lemma {:induction false} FirstFromIs(rs: seq<RunRecord>, sid: string, id: string, i: nat)
    requires i <= |rs|
    ensures var f := FirstFrom(rs, sid, id, i);
      && i <= f <= |rs| && (f < |rs| ==> Of(rs[f], sid, id)) && forall j | i <= j < f :: !Of(rs[j], sid, id)
    decreases |rs| - i
  {
    if i < |rs| && !Of(rs[i], sid, id) {
      FirstFromIs(rs, sid, id, i + 1);
    }
  }

  lemma {:induction false} FirstIs(rs: seq<RunRecord>, sid: string, id: string)
    ensures var f := First(rs, sid, id);
      && f <= |rs| && (f < |rs| ==> Of(rs[f], sid, id)) && forall j | 0 <= j < f :: !Of(rs[j], sid, id)
  {
    FirstFromIs(rs, sid, id, 0);
  }

  lemma {:induction false} EndedNext(rs: seq<RunRecord>, sid: string, id: string, n: nat)
    requires n < |rs|
    ensures EndedBy(rs, sid, id, n + 1) <==> EndedBy(rs, sid, id, n) || (Counts(rs, sid, n) && Ends(rs[n], id))
  {
  }

  // ------------------------------------------------------------ one more record

  /** The fold after some records agrees with what they say. */
  ghost predicate Agrees(rs: seq<RunRecord>, sid: string, n: nat, st: Fold)
    requires n <= |rs|
  {
    && Clean(st) && (forall id :: id in st.ended <==> EndedBy(rs, sid, id, n))
    && (forall id :: id in st.at <==> OpenAt(rs, sid, id, n))
    && (forall k | 0 <= k < |st.runs| :: Tells(rs, sid, n, st.runs[k]))
    && (forall k, l | 0 <= k < l < |st.runs| :: InOrder(rs, sid, st.runs[k].runID, st.runs[l].runID))
  }

  /** A record that is not of a run leaves what is told of the run. */
  lemma {:induction false} TellsOn(rs: seq<RunRecord>, sid: string, n: nat, run: OpenRun)
    requires n < |rs| && Tells(rs, sid, n, run) && !Of(rs[n], sid, run.runID)
    ensures Tells(rs, sid, n + 1, run)
  {
    hide First, Root;
    RequestOn(rs, sid, run.runID, n, run.request);
  }

  lemma {:induction false} RequestOn(rs: seq<RunRecord>, sid: string, id: string, n: nat, request: string)
    requires n < |rs| && RequestIs(rs, sid, id, n, request) && !(Of(rs[n], sid, id) && rs[n].action.Admitted?)
    ensures RequestIs(rs, sid, id, n + 1, request)
  {
  }

  lemma {:induction false} RequestNew(rs: seq<RunRecord>, sid: string, id: string, n: nat)
    requires n < |rs| && Of(rs[n], sid, id) && rs[n].action.Admitted?
    ensures RequestIs(rs, sid, id, n + 1, rs[n].request)
  {
    assert Of(rs[n], sid, id) && rs[n].action.Admitted?;
  }

  /** A record of an open run marks it. */
  lemma {:induction false} TellsMarked(rs: seq<RunRecord>, sid: string, n: nat, run: OpenRun)
    requires n < |rs| && Tells(rs, sid, n, run) && Of(rs[n], sid, run.runID)
    ensures Tells(rs, sid, n + 1, Mark(run, rs[n]))
  {
    hide First, Root, RequestIs;
    if rs[n].action.Admitted? {
      RequestNew(rs, sid, run.runID, n);
    } else {
      RequestOn(rs, sid, run.runID, n, run.request);
    }
  }

  /** A run first spoken of here. */
  lemma {:induction false} TellsFresh(rs: seq<RunRecord>, sid: string, n: nat, run: OpenRun)
    requires n < |rs| && First(rs, sid, run.runID) == n && Of(rs[n], sid, run.runID)
    requires run.admittedMS == rs[n].timeMS && run.root == Root(rs, sid, n) && run.started == rs[n].action.Started?
    requires run.request == if rs[n].action.Admitted? then rs[n].request else ""
    ensures Tells(rs, sid, n + 1, run)
  {
    hide First, Root;
    FirstIs(rs, sid, run.runID);
  }

  lemma {:induction false} FirstHere(rs: seq<RunRecord>, sid: string, n: nat)
    requires n < |rs| && rs[n].sessionID == sid && !(First(rs, sid, rs[n].runID) < n)
    ensures First(rs, sid, rs[n].runID) == n
  {
    FirstIs(rs, sid, rs[n].runID);
  }

  lemma {:induction false} OpenNext(rs: seq<RunRecord>, sid: string, id: string, n: nat)
    requires n < |rs|
    ensures OpenAt(rs, sid, id, n + 1) <==>
      && (OpenAt(rs, sid, id, n) || (First(rs, sid, id) == n && !EndedBy(rs, sid, id, n)))
      && !(Counts(rs, sid, n) && Ends(rs[n], id))
    ensures First(rs, sid, id) == n ==> Of(rs[n], sid, id)
  {
    hide First, Counts;
    FirstIs(rs, sid, id);
    EndedNext(rs, sid, id, n);
  }

  lemma {:induction false} SkippedAgrees(rs: seq<RunRecord>, sid: string, n: nat, st: Fold)
    requires n < |rs| && Agrees(rs, sid, n, st) && !Counts(rs, sid, n)
    ensures Agrees(rs, sid, n + 1, st) && Step(st, rs[n], sid) == st
  {
    hide First, Root, EndedBy, Tells, InOrder, OpenAt, Bijective;
    forall id
      ensures OpenAt(rs, sid, id, n + 1) == OpenAt(rs, sid, id, n) && EndedBy(rs, sid, id, n + 1) == EndedBy(rs, sid, id, n)
    {
      OpenNext(rs, sid, id, n);
      EndedNext(rs, sid, id, n);
      OpenParts(rs, sid, id, n);
    }
    forall k | 0 <= k < |st.runs|
      ensures Tells(rs, sid, n + 1, st.runs[k])
    {
      OpenOfFold(st, k);
      assert st.runs[k].runID !in st.ended;
      TellsOn(rs, sid, n, st.runs[k]);
    }
  }

  lemma {:induction false} OpenParts(rs: seq<RunRecord>, sid: string, id: string, n: nat)
    requires n <= |rs|
    ensures OpenAt(rs, sid, id, n) <==> First(rs, sid, id) < n && !EndedBy(rs, sid, id, n)
  {
  }

  lemma {:induction false} OpenOfFold(st: Fold, k: nat)
    requires Bijective(st) && k < |st.runs|
    ensures st.runs[k].runID in st.at && st.at[st.runs[k].runID] == k
  {
  }

  lemma {:induction false} StepEndedIs(st: Fold, r: RunRecord, sid: string)
    requires Indexed(st) && r.sessionID == sid && r.runID !in st.ended
    ensures forall id :: id in Step(st, r, sid).ended <==> id in st.ended || Ends(r, id)
  {
  }

  lemma {:induction false} StepOpenIs(st: Fold, r: RunRecord, sid: string)
    requires Clean(st) && r.sessionID == sid && r.runID !in st.ended && !Collides(st, r)
    ensures forall id :: id in Step(st, r, sid).at <==> (id in st.at || id == r.runID) && !Ends(r, id)
  {
    if r.action.Settled? {
      RemovedBijective(st.(ended := st.ended + {r.runID}), r.runID);
    }
  }

  /** What a step makes of the run its record is of. */
  lemma {:induction false} StepRunIs(st: Fold, r: RunRecord, sid: string)
    requires Clean(st) && r.sessionID == sid && r.runID !in st.ended && !r.action.Settled? && !Collides(st, r)
    ensures r.runID in Step(st, r, sid).at && Step(st, r, sid).at[r.runID] < |Step(st, r, sid).runs|
    ensures Step(st, r, sid).runs[Step(st, r, sid).at[r.runID]] ==
      if r.runID in st.at then Mark(st.runs[st.at[r.runID]], r)
      else if Replacing(r) && r.replaced in st.at then
        OpenRun(r.runID, r.timeMS, false, r.request, OrElse(r.root, st.runs[st.at[r.replaced]].root))
      else Mark(Opened(r), r)
  {
  }

  lemma {:induction false} CountedSets(rs: seq<RunRecord>, sid: string, n: nat, st: Fold)
    requires n < |rs| && Agrees(rs, sid, n, st) && Counts(rs, sid, n) && !Collides(st, rs[n])
    ensures var st' := Step(st, rs[n], sid);
      && Clean(st') && (forall id :: id in st'.ended <==> EndedBy(rs, sid, id, n + 1))
      && (forall id :: id in st'.at <==> OpenAt(rs, sid, id, n + 1))
  {
    hide First, EndedBy, OpenAt, Tells, InOrder, Collides, Step, Ends;
    var r := rs[n];
    CountedOpen(rs, sid, n);
    StepEndedIs(st, r, sid);
    StepOpenIs(st, r, sid);
    StepClean(st, r, sid);
    hide Clean;
    forall id
      ensures EndedBy(rs, sid, id, n + 1) <==> id in st.ended || Ends(r, id)
      ensures OpenAt(rs, sid, id, n + 1) <==> (id in st.at || id == r.runID) && !Ends(r, id)
    {
      EndedNext(rs, sid, id, n);
      OpenNext(rs, sid, id, n);
      OpenParts(rs, sid, id, n);
      OpenParts(rs, sid, r.runID, n);
      FirstIs(rs, sid, r.runID);
    }
  }

  lemma {:induction false} CountedOpen(rs: seq<RunRecord>, sid: string, n: nat)
    requires n < |rs| && Counts(rs, sid, n)
    ensures rs[n].sessionID == sid && !EndedBy(rs, sid, rs[n].runID, n)
  {
  }

  /** The run a record is of is told by the records up to it. */
  lemma {:induction false} CountedTells(rs: seq<RunRecord>, sid: string, n: nat, st: Fold)
    requires n < |rs| && Agrees(rs, sid, n, st) && Counts(rs, sid, n) && !Collides(st, rs[n]) && !rs[n].action.Settled?
    ensures var st' := Step(st, rs[n], sid);
      rs[n].runID in st'.at && st'.at[rs[n].runID] < |st'.runs| && Tells(rs, sid, n + 1, st'.runs[st'.at[rs[n].runID]])
  {
    hide First, EndedBy, OpenAt, InOrder, Collides, Step, Root, Tells;
    var r := rs[n];
    CountedOpen(rs, sid, n);
    StepRunIs(st, r, sid);
    if r.runID in st.at {
      TellsMarked(rs, sid, n, st.runs[st.at[r.runID]]);
    } else {
      OpenParts(rs, sid, r.runID, n);
      FirstHere(rs, sid, n);
      FreshRoot(rs, sid, n, st);
      var st' := Step(st, r, sid);
      TellsFresh(rs, sid, n, st'.runs[st'.at[r.runID]]);
    }
  }

  lemma {:induction false} FreshRoot(rs: seq<RunRecord>, sid: string, n: nat, st: Fold)
    requires n < |rs| && Agrees(rs, sid, n, st)
    ensures Root(rs, sid, n) ==
      if rs[n].root != "" then rs[n].root
      else if Replacing(rs[n]) && rs[n].replaced in st.at then st.runs[st.at[rs[n].replaced]].root else rs[n].runID
  {
    hide First, EndedBy, InOrder, RequestIs;
    if Replacing(rs[n]) && rs[n].replaced in st.at {
      assert Tells(rs, sid, n, st.runs[st.at[rs[n].replaced]]);
    }
  }

  /** Where two runs of a session stand to each other once a record has been folded in. */
  lemma {:induction false} CountedOrder(rs: seq<RunRecord>, sid: string, n: nat, st: Fold, k: nat, l: nat)
    requires n < |rs| && Agrees(rs, sid, n, st) && Counts(rs, sid, n) && !Collides(st, rs[n])
    requires k < l < |Step(st, rs[n], sid).runs|
    ensures var runs := Step(st, rs[n], sid).runs; InOrder(rs, sid, runs[k].runID, runs[l].runID)
  {
    hide First, EndedBy, OpenAt, InOrder, Tells, Place, Collides;
    var r := rs[n];
    CountedOpen(rs, sid, n);
    if r.action.Settled? {
      SettledSlots(st, r, sid, k, l);
    } else if Replacing(r) && r.replaced in st.at {
      TakenPlace(rs, sid, n, st);
      TakenSlots(st, r, sid);
      TakenOrder(rs, sid, r.replaced, r.runID, st.runs, st.at[r.replaced], k, l);
    } else if r.runID in st.at {
      assert Step(st, r, sid).runs[k].runID == st.runs[k].runID && Step(st, r, sid).runs[l].runID == st.runs[l].runID;
    } else if l < |st.runs| {
    } else {
      FreshPlace(rs, sid, n, st, k);
    }
  }

  lemma {:induction false} SettledSlots(st: Fold, r: RunRecord, sid: string, k: nat, l: nat)
    requires Indexed(st) && r.sessionID == sid && r.runID !in st.ended && r.action.Settled?
    requires k < l < |Step(st, r, sid).runs|
    ensures exists i, j :: 0 <= i < j < |st.runs| && Step(st, r, sid).runs[k] == st.runs[i] && Step(st, r, sid).runs[l] == st.runs[j]
  {
    var runs := Step(st, r, sid).runs;
    if r.runID in st.at {
      var x := st.at[r.runID];
      var i, j := if k < x then k else k + 1, if l < x then l else l + 1;
      assert runs[k] == st.runs[i] && runs[l] == st.runs[j];
    } else {
      assert runs[k] == st.runs[k] && runs[l] == st.runs[l];
    }
  }

  lemma {:induction false} TakenSlots(st: Fold, r: RunRecord, sid: string)
    requires Clean(st) && r.sessionID == sid && r.runID !in st.ended && Replacing(r) && r.replaced in st.at
    ensures var x, runs := st.at[r.replaced], Step(st, r, sid).runs;
      |runs| == |st.runs| && runs[x].runID == r.runID && forall k | 0 <= k < |runs| && k != x :: runs[k] == st.runs[k]
  {
  }

  lemma {:induction false} TakenPlace(rs: seq<RunRecord>, sid: string, n: nat, st: Fold)
    requires n < |rs| && Agrees(rs, sid, n, st) && Counts(rs, sid, n) && !Collides(st, rs[n])
    requires Replacing(rs[n]) && rs[n].replaced in st.at
    ensures First(rs, sid, rs[n].runID) == n && First(rs, sid, rs[n].replaced) < n
    ensures Place(rs, sid, n) == Place(rs, sid, First(rs, sid, rs[n].replaced))
  {
    hide First, EndedBy, InOrder, Tells;
    FirstHere(rs, sid, n);
  }

  lemma {:induction false} TakenOrder(
    rs: seq<RunRecord>, sid: string, gone: string, came: string, runs: seq<OpenRun>, x: nat, k: nat, l: nat)
    requires x < |runs| && runs[x].runID == gone && k < l < |runs|
    requires InOrder(rs, sid, runs[k].runID, runs[l].runID)
    requires First(rs, sid, gone) < |rs| && First(rs, sid, came) < |rs|
    requires Place(rs, sid, First(rs, sid, came)) == Place(rs, sid, First(rs, sid, gone))
    ensures InOrder(rs, sid, if k == x then came else runs[k].runID, if l == x then came else runs[l].runID)
  {
    hide First, Place;
  }

  lemma {:induction false} FreshPlace(rs: seq<RunRecord>, sid: string, n: nat, st: Fold, k: nat)
    requires n < |rs| && Agrees(rs, sid, n, st) && Counts(rs, sid, n) && k < |st.runs|
    requires rs[n].runID !in st.at && !(Replacing(rs[n]) && rs[n].replaced in st.at)
    ensures InOrder(rs, sid, st.runs[k].runID, rs[n].runID)
  {
    hide First, EndedBy, RequestIs, Root;
    FirstHere(rs, sid, n);
    assert Tells(rs, sid, n, st.runs[k]);
  }

  lemma {:induction false} CountedAgrees(rs: seq<RunRecord>, sid: string, n: nat, st: Fold)
    requires n < |rs| && Agrees(rs, sid, n, st) && Counts(rs, sid, n) && !Collides(st, rs[n])
    ensures Agrees(rs, sid, n + 1, Step(st, rs[n], sid))
  {
    hide First, EndedBy, OpenAt, InOrder, Tells, Collides, Step, Stepped;
    var r, st' := rs[n], Step(st, rs[n], sid);
    CountedSets(rs, sid, n, st);
    CountedOpen(rs, sid, n);
    StepStepped(st, r, sid) by {
      NoDoubles(st, r);
    }
    SteppedParts(st, r, st');
    forall k | 0 <= k < |st'.runs|
      ensures Tells(rs, sid, n + 1, st'.runs[k])
    {
      OpenOfFold(st', k);
      var id := st'.runs[k].runID;
      if id == r.runID {
        NotSettled(st, r, sid);
        CountedTells(rs, sid, n, st);
      } else {
        TellsOn(rs, sid, n, st.runs[st.at[id]]);
      }
    }
    forall k, l | 0 <= k < l < |st'.runs|
      ensures InOrder(rs, sid, st'.runs[k].runID, st'.runs[l].runID)
    {
      CountedOrder(rs, sid, n, st, k, l);
    }
  }

  lemma {:induction false} NoDoubles(st: Fold, r: RunRecord)
    requires !Collides(st, r)
    ensures !Doubles(st, r)
  {
  }

  lemma {:induction false} SteppedParts(st: Fold, r: RunRecord, st': Fold)
    requires Bijective(st) && Stepped(st, r, st')
    ensures Bijective(st')
    ensures forall id | id in st'.at && id != r.runID :: id in st.at && st'.runs[st'.at[id]] == st.runs[st.at[id]]
  {
  }

  lemma {:induction false} NotSettled(st: Fold, r: RunRecord, sid: string)
    requires Bijective(st) && r.sessionID == sid && r.runID !in st.ended && r.runID in Step(st, r, sid).at
    ensures !r.action.Settled?
  {
    if r.action.Settled? {
      RemovedBijective(st.(ended := st.ended + {r.runID}), r.runID);
    }
  }

  // ------------------------------------------------------------ whole logs

  lemma {:induction false} FairAgrees(rs: seq<RunRecord>, sid: string, n: nat)
    requires n <= |rs| && Fair(rs, sid, n)
    ensures Agrees(rs, sid, n, FoldOver(rs[..n], sid))
  {
    hide First, EndedBy, OpenAt, InOrder, Tells, Collides, Step;
    if n == 0 {
      NothingAgrees(rs, sid);
    } else {
      FairAgrees(rs, sid, n - 1);
      assert rs[..n] == rs[..n - 1] + [rs[n - 1]];
      FoldSnoc(rs[..n - 1], rs[n - 1], sid);
      var st := FoldOver(rs[..n - 1], sid);
      if Counts(rs, sid, n - 1) {
        FairCollides(rs, sid, n - 1, st);
        CountedAgrees(rs, sid, n - 1, st);
      } else {
        SkippedAgrees(rs, sid, n - 1, st);
      }
    }
  }

  lemma {:induction false} NothingAgrees(rs: seq<RunRecord>, sid: string)
    ensures Agrees(rs, sid, 0, FoldOver(rs[..0], sid))
  {
    assert rs[..0] == [];
    NothingFolded(sid);
  }

  /** A record that counts collides exactly when it is not fair. */
  lemma {:induction false} FairCollides(rs: seq<RunRecord>, sid: string, n: nat, st: Fold)
    requires n < |rs| && Agrees(rs, sid, n, st) && Counts(rs, sid, n)
    ensures Collides(st, rs[n]) <==>
      && Replacing(rs[n])
      && (rs[n].runID == rs[n].replaced || (OpenAt(rs, sid, rs[n].replaced, n) && OpenAt(rs, sid, rs[n].runID, n)))
  {
    hide First, EndedBy, OpenAt, InOrder, Tells;
    CountedOpen(rs, sid, n);
  }

  lemma {:induction false} AgreesLists(rs: seq<RunRecord>, sid: string, n: nat, st: Fold)
    requires n <= |rs| && Agrees(rs, sid, n, st)
    ensures Lists(rs, sid, n, st.runs)
  {
    hide First, EndedBy, OpenAt, InOrder, Tells;
    forall id
      ensures OpenAt(rs, sid, id, n) <==> Listed(st.runs, id)
    {
      if id in st.at {
        assert st.runs[st.at[id]].runID == id;
      }
    }
  }

  /** A replacement of a run under its own id lists a run that ended. */
  lemma {:induction false} OwnUnlisted(rs: seq<RunRecord>, sid: string, n: nat, st: Fold)
    requires n < |rs| && Indexed(st) && Counts(rs, sid, n) && rs[n].runID !in st.ended
    requires Replacing(rs[n]) && rs[n].runID == rs[n].replaced
    ensures !Lists(rs, sid, n + 1, Step(st, rs[n], sid).runs)
  {
    hide First, InOrder, Tells, Counts, EndedBy;
    var id, st' := rs[n].runID, Step(st, rs[n], sid);
    CountedOpen(rs, sid, n);
    EndedNext(rs, sid, id, n);
    assert id in st'.at && st'.runs[st'.at[id]].runID == id;
    assert !OpenAt(rs, sid, id, n + 1);
  }

  /** A replacement of one open run under the id of another lists the one twice. */
  lemma {:induction false} DoubledUnlisted(rs: seq<RunRecord>, sid: string, n: nat, st: Fold)
    requires n < |rs| && Bijective(st) && rs[n].sessionID == sid && Doubles(st, rs[n])
    ensures !Lists(rs, sid, n + 1, Step(st, rs[n], sid).runs)
  {
    hide First, Place, Tells, Counts, EndedBy, OpenAt, Step, Doubles;
    DoubledRuns(st, rs[n], sid);
    var runs := Step(st, rs[n], sid).runs;
    var i, j :| 0 <= i < j < |runs| && runs[i].runID == runs[j].runID;
    assert !InOrder(rs, sid, runs[i].runID, runs[j].runID);
  }

  lemma {:induction false} UnfairUnlisted(rs: seq<RunRecord>, sid: string, n: nat, st: Fold)
    requires n < |rs| && Agrees(rs, sid, n, st) && Counts(rs, sid, n) && Collides(st, rs[n])
    ensures !Lists(rs, sid, n + 1, Step(st, rs[n], sid).runs)
  {
    hide First, EndedBy, OpenAt, InOrder, Tells, Step, Lists;
    CountedOpen(rs, sid, n);
    if Doubles(st, rs[n]) {
      DoubledUnlisted(rs, sid, n, st);
    } else {
      OwnUnlisted(rs, sid, n, st);
    }
  }

  lemma {:induction false} FirstUnfair(rs: seq<RunRecord>, sid: string, n: nat) returns (m: nat)
    requires n <= |rs| && !Fair(rs, sid, n)
    ensures m < n && Fair(rs, sid, m) && !Fair(rs, sid, m + 1)
    decreases n
  {
    m := n - 1;
    if !Fair(rs, sid, m) {
      m := FirstUnfair(rs, sid, m);
    }
  }

  lemma {:induction false} UnfairCollides(rs: seq<RunRecord>, sid: string, n: nat, st: Fold)
    requires n < |rs| && Fair(rs, sid, n) && !Fair(rs, sid, n + 1) && Agrees(rs, sid, n, st)
    ensures Counts(rs, sid, n) && Collides(st, rs[n])
  {
    hide EndedBy, OpenAt, InOrder, Tells, Collides, First;
    FairCollides(rs, sid, n, st) by {
      assert Counts(rs, sid, n);
    }
  }

  /** After every prefix of a log the runs listed are exactly those it leaves open, each told by its
      own records and in the order their places came up, if and only if no record that counts
      replaces its own run or an open run under the id of another. */
  lemma {:induction false} LogReads(rs: seq<RunRecord>, sid: string)
    ensures (forall n | 0 <= n <= |rs| :: Lists(rs, sid, n, OpenRunsOf(rs[..n], sid))) <==> Fair(rs, sid, |rs|)
  {
    hide Lists, Agrees, Step;
    if Fair(rs, sid, |rs|) {
      forall n | 0 <= n <= |rs|
        ensures Lists(rs, sid, n, OpenRunsOf(rs[..n], sid))
      {
        FairAgrees(rs, sid, n);
        AgreesLists(rs, sid, n, FoldOver(rs[..n], sid));
      }
    } else {
      hide Fair;
      var n := FirstUnfair(rs, sid, |rs|);
      var st := FoldOver(rs[..n], sid);
      FairAgrees(rs, sid, n);
      UnfairCollides(rs, sid, n, st);
      UnfairUnlisted(rs, sid, n, st);
      assert rs[..n + 1] == rs[..n] + [rs[n]];
      FoldSnoc(rs[..n], rs[n], sid);
      assert !Lists(rs, sid, n + 1, OpenRunsOf(rs[..n + 1], sid));
    }
  }

  // ------------------------------------------------------------ replacements

  /** A run with a record and none that settles it. */
  ghost predicate Unsettled(rs: seq<RunRecord>, sid: string, id: string) {
    (exists r :: r in rs && Of(r, sid, id)) && forall r | r in rs && Of(r, sid, id) :: !r.action.Settled?
  }

  /** In a session no record of which replaces another, a run is listed if and only if it has a record
      and none that settles it, under its own root unless its first record brings one, and in the
      order of first records. */
  lemma {:induction false} PlainLogReads(rs: seq<RunRecord>, sid: string)
    requires forall r | r in rs && r.sessionID == sid && r.action.Admitted? :: r.replaced == ""
    ensures var runs := OpenRunsOf(rs, sid);
      && (forall id :: Listed(runs, id) <==> Unsettled(rs, sid, id))
      && (forall k | 0 <= k < |runs| :: First(rs, sid, runs[k].runID) < |rs| && Tells(rs, sid, |rs|, runs[k])
            && runs[k].root == OrElse(rs[First(rs, sid, runs[k].runID)].root, runs[k].runID))
      && (forall k, l | 0 <= k < l < |runs| :: First(rs, sid, runs[k].runID) < First(rs, sid, runs[l].runID))
  {
    hide First, RequestIs, Counts, EndedBy;
    var runs := OpenRunsOf(rs, sid);
    forall i | 0 <= i < |rs| && Counts(rs, sid, i)
      ensures !Replacing(rs[i])
    {
      CountedOpen(rs, sid, i);
      assert rs[i] in rs;
    }
    LogReads(rs, sid);
    assert rs[..|rs|] == rs && Lists(rs, sid, |rs|, runs);
    forall id
      ensures OpenAt(rs, sid, id, |rs|) <==> Unsettled(rs, sid, id)
    {
      PlainOpen(rs, sid, id);
    }
    forall k | 0 <= k < |runs|
      ensures First(rs, sid, runs[k].runID) < |rs| && rs[First(rs, sid, runs[k].runID)].runID == runs[k].runID
      ensures !Replacing(rs[First(rs, sid, runs[k].runID)])
    {
      assert Tells(rs, sid, |rs|, runs[k]);
      FirstIs(rs, sid, runs[k].runID);
      assert rs[First(rs, sid, runs[k].runID)] in rs;
    }
  }

  lemma {:induction false} PlainEnded(rs: seq<RunRecord>, sid: string, id: string, n: nat)
    requires n <= |rs| && forall r | r in rs && r.sessionID == sid && r.action.Admitted? :: r.replaced == ""
    ensures EndedBy(rs, sid, id, n) <==> exists i :: 0 <= i < n && Of(rs[i], sid, id) && rs[i].action.Settled?
    decreases n
  {
    hide Counts, EndedBy;
    if n > 0 {
      PlainEnded(rs, sid, id, n - 1);
      EndedNext(rs, sid, id, n - 1);
      assert rs[n - 1] in rs;
      PlainCounts(rs, sid, n - 1);
    } else {
      NoneEnded(rs, sid, id);
    }
  }

  lemma {:induction false} NoneEnded(rs: seq<RunRecord>, sid: string, id: string)
    ensures !EndedBy(rs, sid, id, 0)
  {
  }

  lemma {:induction false} PlainCounts(rs: seq<RunRecord>, sid: string, n: nat)
    requires n < |rs|
    ensures Counts(rs, sid, n) <==> rs[n].sessionID == sid && !EndedBy(rs, sid, rs[n].runID, n)
  {
  }

  lemma {:induction false} PlainOpen(rs: seq<RunRecord>, sid: string, id: string)
    requires forall r | r in rs && r.sessionID == sid && r.action.Admitted? :: r.replaced == ""
    ensures OpenAt(rs, sid, id, |rs|) <==> Unsettled(rs, sid, id)
  {
    hide First, EndedBy;
    FirstIs(rs, sid, id);
    PlainEnded(rs, sid, id, |rs|);
    if exists r :: r in rs && Of(r, sid, id) {
      var r :| r in rs && Of(r, sid, id);
      var j :| 0 <= j < |rs| && rs[j] == r;
      assert First(rs, sid, id) <= j;
    }
    if First(rs, sid, id) < |rs| {
      assert rs[First(rs, sid, id)] in rs;
    }
  }

  /** A run that takes over an open one, whatever log led here: it stands in its slot, under its root
      unless it brings one, not started, with its own time and request; the run it replaces is gone
      and the others are as they were. */
  lemma {:induction false} TakeoverReads(rs: seq<RunRecord>, r: RunRecord)
    requires var st := FoldOver(rs, r.sessionID);
      Bijective(st) && r.action.Admitted? && r.replaced != "" && r.replaced in st.at && r.runID !in st.ended && r.runID !in st.at
    ensures var was, now, x := OpenRunsOf(rs, r.sessionID), OpenRunsOf(rs + [r], r.sessionID), FoldOver(rs, r.sessionID).at[r.replaced];
      && x < |was| == |now| && was[x].runID == r.replaced
      && now[x] == OpenRun(r.runID, r.timeMS, false, r.request, if r.root != "" then r.root else was[x].root)
      && (forall k | 0 <= k < |now| && k != x :: now[k] == was[k])
      && (forall k | 0 <= k < |now| :: now[k].runID != r.replaced)
  {
    FoldSnoc(rs, r, r.sessionID);
  }
}
