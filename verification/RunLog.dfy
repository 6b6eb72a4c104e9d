/** The run store: every append rewrites the log to the records of the runs that are
    still open.  The fold over the rewritten log must mean what the fold over the
    whole history means. */
module RunLog {

  datatype Action = Admitted | Started | Settled | OtherAction(name: string)

  datatype RunRecord = RunRecord(
    action: Action, timeMS: int, sessionID: string, runID: string,
    request: string, replaced: string, root: string)

  datatype OpenRun = OpenRun(runID: string, admittedMS: int, started: bool, request: string, root: string)

  /** What the fold carries: the slot list, the run-to-slot map and the runs that ended. */
  datatype Fold = Fold(runs: seq<OpenRun>, at: map<string, nat>, ended: set<string>)

  const EMPTY := Fold([], map[], {})

  function OrElse(text: string, fallback: string): string {
    if text != "" then text else fallback
  }

  predicate Replacing(r: RunRecord) {
    r.action.Admitted? && r.replaced != ""
  }

  /** The map never points outside the list, nor at a slot of another run. */
  ghost predicate Indexed(st: Fold) {
    forall id | id in st.at :: st.at[id] < |st.runs| && st.runs[st.at[id]].runID == id
  }

  /** The map and the list are in bijection. */
  ghost predicate Bijective(st: Fold) {
    && Indexed(st)
    && forall i | 0 <= i < |st.runs| :: st.runs[i].runID in st.at && st.at[st.runs[i].runID] == i
  }

  /** The map and the list are in bijection, and no ended run is open. */
  ghost predicate Clean(st: Fold) {
    Bijective(st) && st.at.Keys !! st.ended
  }

  function Mark(run: OpenRun, r: RunRecord): OpenRun {
    match r.action
    case Admitted => run.(request := r.request)
    case Started => run.(started := true)
    case _ => run
  }

  function Shifted(at: map<string, nat>, runID: string, index: nat): map<string, nat> {
    map id | id in at && id != runID :: if at[id] > index then at[id] - 1 else at[id]
  }

  function Removed(st: Fold, runID: string): (st': Fold)
    requires Indexed(st)
    ensures Indexed(st')
  {
    if runID !in st.at then st
    else
      var i := st.at[runID];
      Fold(st.runs[..i] + st.runs[i + 1..], Shifted(st.at, runID, i), st.ended)
  }

  /** One record folded in; records of other sessions and of ended runs are skipped. */
  function Step(st: Fold, r: RunRecord, sid: string): (st': Fold)
    requires Indexed(st)
    ensures Indexed(st')
  {
    if r.sessionID != sid || r.runID in st.ended then st
    else if r.action.Settled? then Removed(st.(ended := st.ended + {r.runID}), r.runID)
    else
      var ended := if Replacing(r) then st.ended + {r.replaced} else st.ended;
      if Replacing(r) && r.replaced in st.at then
        var slot := st.at[r.replaced];
        var root := OrElse(r.root, st.runs[slot].root);
        Fold(st.runs[slot := OpenRun(r.runID, r.timeMS, false, r.request, root)],
             (st.at - {r.replaced})[r.runID := slot], ended)
      else if r.runID in st.at then
        var index := st.at[r.runID];
        Fold(st.runs[index := Mark(st.runs[index], r)], st.at, ended)
      else
        Fold(st.runs + [Mark(Opened(r), r)], st.at[r.runID := |st.runs|], ended)
  }

  function Opened(r: RunRecord): OpenRun {
    OpenRun(r.runID, r.timeMS, false, "", OrElse(r.root, r.runID))
  }

  function FoldFrom(st: Fold, rs: seq<RunRecord>, sid: string): (st': Fold)
    requires Indexed(st)
    ensures Indexed(st')
  {
    if rs == [] then st else Step(FoldFrom(st, rs[..|rs| - 1], sid), rs[|rs| - 1], sid)
  }

  function FoldOver(rs: seq<RunRecord>, sid: string): (st: Fold)
    ensures Indexed(st)
  {
    FoldFrom(EMPTY, rs, sid)
  }

  function OpenRunsOf(rs: seq<RunRecord>, sid: string): seq<OpenRun> {
    FoldOver(rs, sid).runs
  }

  // ------------------------------------------------------------ the code

  /** The range loop over the map, in whatever order its keys come. */
  method ShiftSlots(at: map<string, nat>, runID: string, index: nat) returns (at': map<string, nat>)
    requires forall id | id in at && id != runID :: at[id] != index
    ensures at' == Shifted(at, runID, index)
  {
    hide Shifted;
    at' := at - {runID};
    var todo := at'.Keys;
    while todo != {}
      invariant todo <= at'.Keys == at.Keys - {runID}
      invariant forall id | id in at' ::
        at'[id] == if id !in todo && at[id] > index then at[id] - 1 else at[id]
      decreases |todo|
    {
      var other :| other in todo;
      if at'[other] > index {
        at' := at'[other := at'[other] - 1];
      }
      todo := todo - {other};
    }
    ShiftedIs(at, runID, index, at');
  }

  lemma {:induction false} ShiftedIs(at: map<string, nat>, runID: string, index: nat, at': map<string, nat>)
    requires forall id | id in at && id != runID :: at[id] != index
    requires at'.Keys == at.Keys - {runID}
    requires forall id | id in at' :: at'[id] == if at[id] > index then at[id] - 1 else at[id]
    ensures at' == Shifted(at, runID, index)
  {
  }

  method RemoveRun(runs: seq<OpenRun>, at: map<string, nat>, runID: string, ghost ended: set<string>)
    returns (runs': seq<OpenRun>, at': map<string, nat>)
    requires Indexed(Fold(runs, at, ended))
    ensures Fold(runs', at', ended) == Removed(Fold(runs, at, ended), runID)
  {
    if runID !in at {
      return runs, at;
    }
    var index := at[runID];
    runs' := runs[..index] + runs[index + 1..];
    at' := ShiftSlots(at, runID, index);
  }

  method OpenRuns(records: seq<RunRecord>, sid: string) returns (runs: seq<OpenRun>)
    ensures runs == OpenRunsOf(records, sid)
  {
    runs := [];
    var at: map<string, nat> := map[];
    var ended: set<string> := {};
    for k := 0 to |records|
      invariant Fold(runs, at, ended) == FoldOver(records[..k], sid)
    {
      var r := records[k];
      assert records[..k + 1][..k] == records[..k];
      if r.sessionID != sid || r.runID in ended {
        continue;
      }
      if r.action.Settled? {
        ended := ended + {r.runID};
        runs, at := RemoveRun(runs, at, r.runID, ended);
        continue;
      }
      if r.action.Admitted? && r.replaced != "" {
        ended := ended + {r.replaced};
      }
      if r.action.Admitted? && r.replaced != "" && r.replaced in at {
        var slot := at[r.replaced];
        at := at - {r.replaced};
        at := at[r.runID := slot];
        var root := r.root;
        if root == "" {
          root := runs[slot].root;
        }
        runs := runs[slot := OpenRun(r.runID, r.timeMS, false, r.request, root)];
        continue;
      }
      if r.runID !in at {
        at := at[r.runID := |runs|];
        var root := r.root;
        if root == "" {
          root := r.runID;
        }
        runs := runs + [OpenRun(r.runID, r.timeMS, false, "", root)];
      }
      var index := at[r.runID];
      match r.action {
        case Admitted => runs := runs[index := runs[index].(request := r.request)];
        case Started => runs := runs[index := runs[index].(started := true)];
        case _ =>
      }
    }
    assert records[..|records|] == records;
  }

  /** The record with the root of the run it replaced, when it names none itself. */
  function StampedOf(rs: seq<RunRecord>, r: RunRecord): RunRecord {
    var st := FoldOver(rs, r.sessionID);
    if Replacing(r) && r.root == "" && exists i :: 0 <= i < |st.runs| && st.runs[i].runID == r.replaced
    then r.(root := st.runs[First(st.runs, r.replaced)].root)
    else r
  }

  function First(runs: seq<OpenRun>, id: string): (i: nat)
    requires exists i :: 0 <= i < |runs| && runs[i].runID == id
    ensures i < |runs| && runs[i].runID == id && forall j | 0 <= j < i :: runs[j].runID != id
  {
    if runs[0].runID == id then 0 else 1 + First(runs[1..], id)
  }

  method Stamped(rs: seq<RunRecord>, r: RunRecord) returns (r': RunRecord)
    ensures r' == StampedOf(rs, r)
  {
    r' := r;
    if !r.action.Admitted? || r.replaced == "" || r.root != "" {
      return;
    }
    var runs := OpenRuns(rs, r.sessionID);
    for i := 0 to |runs|
      invariant r' == r
      invariant forall j | 0 <= j < i :: runs[j].runID != r.replaced
    {
      if runs[i].runID == r.replaced {
        r' := r.(root := runs[i].root);
        return;
      }
    }
  }

  predicate Belongs(r: RunRecord, sid: string, id: string) {
    !r.action.Settled? && r.sessionID == sid && r.runID == id
  }

  /** The unsettled records of one run, in log order. */
  function Group(rs: seq<RunRecord>, sid: string, id: string): seq<RunRecord> {
    if rs == [] then []
    else
      var g := Group(rs[..|rs| - 1], sid, id);
      if Belongs(rs[|rs| - 1], sid, id) then g + [rs[|rs| - 1]] else g
  }

  function KeptRuns(all: seq<RunRecord>, sid: string, runs: seq<OpenRun>): seq<RunRecord> {
    if runs == [] then []
    else KeptRuns(all, sid, runs[..|runs| - 1]) + Group(all, sid, runs[|runs| - 1].runID)
  }

  function KeptSessions(all: seq<RunRecord>, sessions: seq<string>): seq<RunRecord> {
    if sessions == [] then []
    else
      var sid := sessions[|sessions| - 1];
      KeptSessions(all, sessions[..|sessions| - 1]) + KeptRuns(all, sid, OpenRunsOf(all, sid))
  }

  function SessionsOf(rs: seq<RunRecord>): seq<string> {
    if rs == [] then []
    else
      var ss := SessionsOf(rs[..|rs| - 1]);
      if rs[|rs| - 1].sessionID in ss then ss else ss + [rs[|rs| - 1].sessionID]
  }

  function KeptAfterOf(rs: seq<RunRecord>, r: RunRecord): seq<RunRecord> {
    var all := rs + [StampedOf(rs, r)];
    KeptSessions(all, SessionsOf(all))
  }

  method CollectSessions(all: seq<RunRecord>) returns (sessions: seq<string>)
    ensures sessions == SessionsOf(all)
  {
    sessions := [];
    var seen: set<string> := {};
    for k := 0 to |all|
      invariant sessions == SessionsOf(all[..k])
      invariant forall s :: s in seen <==> s in sessions
    {
      assert all[..k + 1][..k] == all[..k];
      if all[k].sessionID !in seen {
        seen := seen + {all[k].sessionID};
        sessions := sessions + [all[k].sessionID];
      }
    }
    assert all[..|all|] == all;
  }

  method CollectGroup(all: seq<RunRecord>, sid: string, id: string) returns (kept: seq<RunRecord>)
    ensures kept == Group(all, sid, id)
  {
    kept := [];
    for k := 0 to |all|
      invariant kept == Group(all[..k], sid, id)
    {
      assert all[..k + 1][..k] == all[..k];
      if !all[k].action.Settled? && all[k].sessionID == sid && all[k].runID == id {
        kept := kept + [all[k]];
      }
    }
    assert all[..|all|] == all;
  }

  method CollectRuns(all: seq<RunRecord>, sid: string) returns (kept: seq<RunRecord>)
    ensures kept == KeptRuns(all, sid, OpenRunsOf(all, sid))
  {
    var runs := OpenRuns(all, sid);
    kept := [];
    for i := 0 to |runs|
      invariant kept == KeptRuns(all, sid, runs[..i])
    {
      assert runs[..i + 1][..i] == runs[..i];
      var group := CollectGroup(all, sid, runs[i].runID);
      kept := kept + group;
    }
    assert runs[..|runs|] == runs;
  }

  method KeptAfter(rs: seq<RunRecord>, r: RunRecord) returns (kept: seq<RunRecord>)
    ensures kept == KeptAfterOf(rs, r)
  {
    var stamped := Stamped(rs, r);
    var all := rs + [stamped];
    var sessions := CollectSessions(all);
    kept := [];
    for s := 0 to |sessions|
      invariant kept == KeptSessions(all, sessions[..s])
    {
      assert sessions[..s + 1][..s] == sessions[..s];
      var own := CollectRuns(all, sessions[s]);
      kept := kept + own;
    }
    assert sessions[..|sessions|] == sessions;
  }

  // ------------------------------------------------------------ groups and folds

  lemma {:induction false} FoldConcat(st: Fold, a: seq<RunRecord>, b: seq<RunRecord>, sid: string)
    requires Indexed(st)
    ensures FoldFrom(st, a + b, sid) == FoldFrom(FoldFrom(st, a, sid), b, sid)
  {
    if b == [] {
      assert a + b == a;
    } else {
      FoldConcat(st, a, b[..|b| - 1], sid);
      assert (a + b)[..|a + b| - 1] == a + b[..|b| - 1];
    }
  }

  lemma {:induction false} GroupConcat(a: seq<RunRecord>, b: seq<RunRecord>, sid: string, id: string)
    ensures Group(a + b, sid, id) == Group(a, sid, id) + Group(b, sid, id)
  {
    if b == [] {
      assert a + b == a;
    } else {
      GroupConcat(a, b[..|b| - 1], sid, id);
      assert (a + b)[..|a + b| - 1] == a + b[..|b| - 1];
    }
  }

  lemma {:induction false} GroupMembers(rs: seq<RunRecord>, sid: string, id: string)
    ensures forall r :: r in Group(rs, sid, id) <==> r in rs && Belongs(r, sid, id)
  {
    if rs != [] {
      GroupMembers(rs[..|rs| - 1], sid, id);
      assert rs == rs[..|rs| - 1] + [rs[|rs| - 1]];
    }
  }

  lemma {:induction false} GroupEmpty(rs: seq<RunRecord>, sid: string, id: string)
    requires forall r | r in rs :: !Belongs(r, sid, id)
    ensures Group(rs, sid, id) == []
    decreases |rs|
  {
    if rs != [] {
      GroupEmpty(rs[..|rs| - 1], sid, id);
    }
  }

  lemma {:induction false} GroupOfGroup(rs: seq<RunRecord>, sid: string, id: string, id': string)
    ensures Group(Group(rs, sid, id), sid, id') == if id == id' then Group(rs, sid, id) else []
  {
    if rs != [] {
      var front, last := rs[..|rs| - 1], rs[|rs| - 1];
      GroupOfGroup(front, sid, id, id');
      GroupSnoc(Group(front, sid, id), last, sid, id');
    }
  }

  lemma {:induction false} GroupSnoc(rs: seq<RunRecord>, r: RunRecord, sid: string, id: string)
    ensures Group(rs + [r], sid, id) == Group(rs, sid, id) + if Belongs(r, sid, id) then [r] else []
  {
    assert (rs + [r])[..|rs|] == rs;
  }

  // ------------------------------------------------------------ one run's own records

  /** What one run's records fold to on their own. */
  function OwnFold(g: seq<RunRecord>, sid: string): (e: Fold)
    ensures Indexed(e)
  {
    FoldFrom(EMPTY, g, sid)
  }

  /** A fold that holds one run at most. */
  ghost predicate Single(e: Fold, id: string) {
    && |e.runs| <= 1 && e.at == (if e.runs == [] then map[] else map[id := 0])
    && (e.runs != [] ==> e.runs[0].runID == id)
  }

  /** One run's fold put behind another fold. */
  function Beside(st: Fold, e: Fold, id: string): Fold {
    Fold(st.runs + e.runs, if e.runs == [] then st.at else st.at[id := |st.runs|], st.ended + e.ended)
  }

  lemma {:induction false} StepEnded(st: Fold, r: RunRecord, sid: string)
    requires Indexed(st)
    ensures st.ended <= Step(st, r, sid).ended
  {
  }

  lemma {:induction false} StepSingle(e: Fold, r: RunRecord, sid: string, id: string)
    requires Indexed(e) && Single(e, id) && Belongs(r, sid, id)
    ensures Single(Step(e, r, sid), id)
  {
  }

  lemma {:induction false} EndedBeside(a: set<string>, e: set<string>, id: string)
    ensures (a + e) + {id} == a + (e + {id})
  {
  }

  lemma {:induction false} OwnReplacedBeside(st: Fold, e: Fold, r: RunRecord, sid: string, id: string)
    requires Indexed(st) && Indexed(e) && Single(e, id) && Belongs(r, sid, id)
    requires id !in st.at && id !in st.ended && id !in e.ended && Replacing(r) && r.replaced == id && e.runs != []
    ensures Indexed(Beside(st, e, id)) && Step(Beside(st, e, id), r, sid) == Beside(st, Step(e, r, sid), id)
  {
    EndedBeside(st.ended, e.ended, id);
    assert (st.at[id := |st.runs|] - {id})[id := |st.runs|] == st.at[id := |st.runs|];
  }

  lemma {:induction false} MarkedBeside(st: Fold, e: Fold, r: RunRecord, sid: string, id: string)
    requires Indexed(st) && Indexed(e) && Single(e, id) && Belongs(r, sid, id)
    requires id !in st.at && id !in st.ended && id !in e.ended && e.runs != []
    requires Replacing(r) ==> r.replaced != id && r.replaced !in st.at
    ensures Indexed(Beside(st, e, id)) && Step(Beside(st, e, id), r, sid) == Beside(st, Step(e, r, sid), id)
  {
    EndedBeside(st.ended, e.ended, r.replaced);
  }

  lemma {:induction false} OpenedBeside(st: Fold, e: Fold, r: RunRecord, sid: string, id: string)
    requires Indexed(st) && Indexed(e) && Single(e, id) && Belongs(r, sid, id)
    requires id !in st.at && id !in st.ended && id !in e.ended && e.runs == []
    requires Replacing(r) ==> r.replaced !in st.at
    ensures Indexed(Beside(st, e, id)) && Step(Beside(st, e, id), r, sid) == Beside(st, Step(e, r, sid), id)
  {
    EndedBeside(st.ended, e.ended, r.replaced);
  }

  lemma {:induction false} StepBeside(st: Fold, e: Fold, r: RunRecord, sid: string, id: string)
    requires Indexed(st) && Indexed(e) && Single(e, id) && Belongs(r, sid, id)
    requires id !in st.at && id !in st.ended && Step(e, r, sid).ended !! st.at.Keys
    ensures Indexed(Beside(st, e, id)) && Step(Beside(st, e, id), r, sid) == Beside(st, Step(e, r, sid), id)
  {
    if r.runID !in e.ended {
      StepEndsReplaced(e, r, sid);
      hide Step;
      if e.runs == [] {
        OpenedBeside(st, e, r, sid, id);
      } else if Replacing(r) && r.replaced == id {
        OwnReplacedBeside(st, e, r, sid, id);
      } else {
        MarkedBeside(st, e, r, sid, id);
      }
    } else {
      EndedSkips(st, e, r, sid, id);
    }
  }

  lemma {:induction false} EndedSkips(st: Fold, e: Fold, r: RunRecord, sid: string, id: string)
    requires Indexed(st) && Indexed(e) && Single(e, id) && Belongs(r, sid, id) && id in e.ended
    ensures Indexed(Beside(st, e, id)) && Step(Beside(st, e, id), r, sid) == Beside(st, Step(e, r, sid), id)
  {
  }

  lemma {:induction false} StepEndsReplaced(e: Fold, r: RunRecord, sid: string)
    requires Indexed(e) && r.sessionID == sid && r.runID !in e.ended
    ensures Replacing(r) ==> r.replaced in Step(e, r, sid).ended
  {
  }

  /** The records of one run fold the same behind other runs as on their own, as long as they end
      none of those. */
  lemma {:induction false} FoldBeside(st: Fold, g: seq<RunRecord>, sid: string, id: string)
    requires Indexed(st) && id !in st.at && id !in st.ended
    requires forall r | r in g :: Belongs(r, sid, id)
    requires OwnFold(g, sid).ended !! st.at.Keys
    ensures Single(OwnFold(g, sid), id) && FoldFrom(st, g, sid) == Beside(st, OwnFold(g, sid), id)
    decreases |g|
  {
    hide Step;
    if g != [] {
      var h, r := g[..|g| - 1], g[|g| - 1];
      assert r in g && forall x | x in h :: x in g;
      StepEnded(OwnFold(h, sid), r, sid);
      FoldBeside(st, h, sid, id);
      StepSingle(OwnFold(h, sid), r, sid, id);
      StepBeside(st, OwnFold(h, sid), r, sid, id);
    }
  }

  lemma {:induction false} StepRooted(e: Fold, r: RunRecord, sid: string, id: string)
    requires Indexed(e) && Single(e, id) && Belongs(r, sid, id) && id != ""
    requires e.runs != [] ==> e.runs[0].root != ""
    ensures Step(e, r, sid).runs != [] ==> Step(e, r, sid).runs[0].root != ""
  {
  }

  /** A run with an id has a root. */
  lemma {:induction false} RootNamed(g: seq<RunRecord>, sid: string, id: string)
    requires id != "" && forall r | r in g :: Belongs(r, sid, id)
    ensures Single(OwnFold(g, sid), id)
    ensures OwnFold(g, sid).runs != [] ==> OwnFold(g, sid).runs[0].root != ""
    decreases |g|
  {
    hide Step;
    if g != [] {
      var h, r := g[..|g| - 1], g[|g| - 1];
      assert r in g && forall x | x in h :: x in g;
      RootNamed(h, sid, id);
      StepSingle(OwnFold(h, sid), r, sid, id);
      StepRooted(OwnFold(h, sid), r, sid, id);
    }
  }

  // ------------------------------------------------------------ one session of a store

  /** An open run is what its own records fold to; what they ended is ended and, but for the run
      itself, not open; and an open run that ended, replaced under its own id, they ended. */
  ghost predicate Explained(all: seq<RunRecord>, sid: string, st: Fold, id: string, run: OpenRun) {
    var e := OwnFold(Group(all, sid, id), sid);
    && e.runs == [run] && e.ended <= st.ended && e.ended !! st.at.Keys - {id} && (id in st.ended ==> id in e.ended)
  }

  ghost predicate Described(all: seq<RunRecord>, sid: string, st: Fold) {
    Bijective(st) && forall i | 0 <= i < |st.runs| :: Explained(all, sid, st, st.runs[i].runID, st.runs[i])
  }

  /** A store whose every record of the session is an unsettled record of an open run. */
  ghost predicate Tidy(rs: seq<RunRecord>, sid: string) {
    var st := FoldOver(rs, sid);
    && Described(rs, sid, st)
    && (forall r | r in rs && r.sessionID == sid :: !r.action.Settled? && r.runID in st.at)
  }

  function Upto(at: map<string, nat>, k: nat): map<string, nat> {
    map id | id in at && at[id] < k :: at[id]
  }

  lemma {:induction false} UptoNext(st: Fold, k: nat)
    requires Bijective(st) && k < |st.runs|
    ensures Upto(st.at, k + 1) == Upto(st.at, k)[st.runs[k].runID := k]
    ensures st.runs[k].runID !in Upto(st.at, k)
  {
    assert forall id | id in st.at && st.at[id] == k :: id == st.runs[k].runID;
  }

  /** The first slots, folded from their runs' own records. */
  ghost predicate Partly(all: seq<RunRecord>, sid: string, st: Fold, k: nat, f: Fold) {
    && k <= |st.runs| && f.runs == st.runs[..k] && f.at == Upto(st.at, k)
    && f.ended <= st.ended && f.ended !! st.at.Keys - f.at.Keys
    && forall i | 0 <= i < k :: OwnFold(Group(all, sid, st.runs[i].runID), sid).ended <= f.ended
  }

  lemma {:induction false} KeptRunsFold(all: seq<RunRecord>, sid: string, st: Fold, k: nat)
    requires Described(all, sid, st) && k <= |st.runs|
    ensures Partly(all, sid, st, k, FoldOver(KeptRuns(all, sid, st.runs[..k]), sid))
    ensures forall r :: r in KeptRuns(all, sid, st.runs[..k]) ==> r in all && Belongs(r, sid, r.runID) && r.runID in Upto(st.at, k)
    decreases k
  {
    hide FoldFrom, Group, Upto, Belongs;
    if k == 0 {
      NothingFolded(sid);
      NothingUpto(st.at);
    } else {
      KeptRunsFold(all, sid, st, k - 1);
      var own := st.runs[k - 1].runID;
      var kept, g := KeptRuns(all, sid, st.runs[..k - 1]), Group(all, sid, own);
      assert st.runs[..k][..k - 1] == st.runs[..k - 1];
      FoldConcat(EMPTY, kept, g, sid);
      UptoNext(st, k - 1);
      OneMore(all, sid, st, FoldOver(kept, sid), k - 1);
      GroupOwn(all, sid, own);
    }
  }

  lemma {:induction false} GroupOwn(all: seq<RunRecord>, sid: string, id: string)
    ensures forall r | r in Group(all, sid, id) :: r in all && Belongs(r, sid, id) && Belongs(r, sid, r.runID) && r.runID == id
  {
    GroupMembers(all, sid, id);
  }

  lemma {:induction false} NothingUpto(at: map<string, nat>)
    ensures Upto(at, 0) == map[]
  {
  }

  lemma {:induction false} NothingFolded(sid: string)
    ensures FoldOver([], sid) == EMPTY
  {
  }

  lemma {:induction false} OneMore(all: seq<RunRecord>, sid: string, st: Fold, f: Fold, k: nat)
    requires Described(all, sid, st) && k < |st.runs| && Partly(all, sid, st, k, f) && Indexed(f)
    ensures Partly(all, sid, st, k + 1, FoldFrom(f, Group(all, sid, st.runs[k].runID), sid))
  {
    hide FoldFrom, Group, Upto, OwnFold;
    var own := st.runs[k].runID;
    var g := Group(all, sid, own);
    GroupOwn(all, sid, own);
    UptoNext(st, k);
    assert Explained(all, sid, st, own, st.runs[k]);
    UptoKeys(st.at, k);
    FoldBeside(f, g, sid, own);
    assert st.runs[..k] + [st.runs[k]] == st.runs[..k + 1];
    var f' := Beside(f, OwnFold(g, sid), own);
    forall i | 0 <= i < k + 1
      ensures OwnFold(Group(all, sid, st.runs[i].runID), sid).ended <= f'.ended
    {
    }
  }

  lemma {:induction false} UptoKeys(at: map<string, nat>, k: nat)
    ensures Upto(at, k).Keys <= at.Keys
  {
  }

  /** The kept records of a session group as the whole log groups them. */
  lemma {:induction false} KeptRunsGroup(all: seq<RunRecord>, sid: string, st: Fold, k: nat, id: string)
    requires Bijective(st) && k <= |st.runs|
    ensures Group(KeptRuns(all, sid, st.runs[..k]), sid, id)
         == if id in Upto(st.at, k) then Group(all, sid, id) else []
  {
    hide Group, Upto;
    if k == 0 {
      GroupNone(sid, id);
      NothingUpto(st.at);
    } else {
      KeptRunsGroup(all, sid, st, k - 1, id);
      assert st.runs[..k][..k - 1] == st.runs[..k - 1];
      var last := st.runs[k - 1].runID;
      UptoNext(st, k - 1);
      GroupConcat(KeptRuns(all, sid, st.runs[..k - 1]), Group(all, sid, last), sid, id);
      GroupOfGroup(all, sid, last, id);
    }
  }

  lemma {:induction false} FoldOthers(st: Fold, rs: seq<RunRecord>, sid: string)
    requires Indexed(st)
    requires forall r | r in rs :: r.sessionID != sid
    ensures FoldFrom(st, rs, sid) == st
    decreases |rs|
  {
    if rs != [] {
      FoldOthers(st, rs[..|rs| - 1], sid);
    }
  }

  lemma {:induction false} KeptRunsOwn(all: seq<RunRecord>, sid: string, runs: seq<OpenRun>)
    ensures forall r :: r in KeptRuns(all, sid, runs) ==> r in all && r.sessionID == sid && !r.action.Settled?
  {
    if runs != [] {
      KeptRunsOwn(all, sid, runs[..|runs| - 1]);
      GroupMembers(all, sid, runs[|runs| - 1].runID);
    }
  }

  lemma {:induction false} SessionsDistinct(rs: seq<RunRecord>)
    ensures forall i, j | 0 <= i < j < |SessionsOf(rs)| :: SessionsOf(rs)[i] != SessionsOf(rs)[j]
    ensures forall r | r in rs :: r.sessionID in SessionsOf(rs)
  {
    if rs != [] {
      SessionsDistinct(rs[..|rs| - 1]);
      assert rs == rs[..|rs| - 1] + [rs[|rs| - 1]];
    }
  }

  /** Within the sessions walked so far, a session contributes its own kept records and nothing else. */
  lemma {:induction false} KeptSessionsFold(all: seq<RunRecord>, ss: seq<string>, sid: string)
    requires forall i, j | 0 <= i < j < |ss| :: ss[i] != ss[j]
    ensures FoldOver(KeptSessions(all, ss), sid)
         == if sid in ss then FoldOver(KeptRuns(all, sid, OpenRunsOf(all, sid)), sid) else EMPTY
    ensures forall r | r in KeptSessions(all, ss) && r.sessionID == sid ::
              sid in ss && r in KeptRuns(all, sid, OpenRunsOf(all, sid))
    ensures sid in ss ==> forall r | r in KeptRuns(all, sid, OpenRunsOf(all, sid)) :: r in KeptSessions(all, ss)
  {
    if ss != [] {
      var front, last := ss[..|ss| - 1], ss[|ss| - 1];
      KeptSessionsFold(all, front, sid);
      var kept, own := KeptSessions(all, front), KeptRuns(all, last, OpenRunsOf(all, last));
      KeptRunsOwn(all, last, OpenRunsOf(all, last));
      FoldConcat(EMPTY, kept, own, sid);
      assert ss == front + [last];
      if last == sid {
        assert sid !in front;
      } else {
        FoldOthers(FoldOver(kept, sid), own, sid);
      }
    }
  }

  lemma {:induction false} GroupNone(sid: string, id: string)
    ensures Group([], sid, id) == []
  {
  }

  lemma {:induction false} KeptSessionsGroup(all: seq<RunRecord>, ss: seq<string>, sid: string, id: string)
    requires forall i, j | 0 <= i < j < |ss| :: ss[i] != ss[j]
    ensures Group(KeptSessions(all, ss), sid, id)
         == if sid in ss then Group(KeptRuns(all, sid, OpenRunsOf(all, sid)), sid, id) else []
  {
    hide KeptRuns, OpenRunsOf;
    if ss == [] {
      GroupNone(sid, id);
    } else {
      hide Group;
      var front, last := ss[..|ss| - 1], ss[|ss| - 1];
      KeptSessionsGroup(all, front, sid, id);
      var own := KeptRuns(all, last, OpenRunsOf(all, last));
      GroupConcat(KeptSessions(all, front), own, sid, id);
      assert ss == front + [last];
      if last != sid {
        KeptRunsOwn(all, last, OpenRunsOf(all, last));
        GroupEmpty(own, sid, id);
      }
    }
  }

  // ------------------------------------------------------------ one append

  /** A replacement of one open run under the id of another. */
  predicate Doubles(st: Fold, r: RunRecord) {
    && r.runID !in st.ended && Replacing(r)
    && r.runID != r.replaced && r.replaced in st.at && r.runID in st.at
  }

  /** A replacement under the id it replaces, or of one open run under the id of another. */
  predicate Collides(st: Fold, r: RunRecord) {
    Doubles(st, r) || (r.runID !in st.ended && Replacing(r) && r.runID == r.replaced)
  }

  lemma {:induction false} StampedRoot(rs: seq<RunRecord>, r: RunRecord)
    requires Bijective(FoldOver(rs, r.sessionID))
    ensures var st := FoldOver(rs, r.sessionID);
      StampedOf(rs, r) ==
        if Replacing(r) && r.root == "" && r.replaced in st.at then r.(root := st.runs[st.at[r.replaced]].root) else r
  {
    var st := FoldOver(rs, r.sessionID);
    if Replacing(r) && r.root == "" && r.replaced in st.at {
      assert st.runs[st.at[r.replaced]].runID == r.replaced;
    }
  }

  lemma {:induction false} FoldSnoc(rs: seq<RunRecord>, r: RunRecord, sid: string)
    ensures FoldOver(rs + [r], sid) == Step(FoldOver(rs, sid), r, sid)
  {
    assert (rs + [r])[..|rs|] == rs;
  }

  lemma {:induction false} NoGroup(rs: seq<RunRecord>, sid: string, id: string)
    requires Tidy(rs, sid) && id !in FoldOver(rs, sid).at
    ensures Group(rs, sid, id) == []
  {
    GroupEmpty(rs, sid, id);
  }

  lemma {:induction false} RemovedBijective(st: Fold, id: string)
    requires Bijective(st)
    ensures Bijective(Removed(st, id)) && Removed(st, id).at.Keys == st.at.Keys - {id}
    ensures forall o | o in st.at && o != id :: Removed(st, id).runs[Removed(st, id).at[o]] == st.runs[st.at[o]]
  {
    if id in st.at {
      var i, st' := st.at[id], Removed(st, id);
      forall j | 0 <= j < |st'.runs|
        ensures st'.runs[j].runID in st'.at && st'.at[st'.runs[j].runID] == j
      {
        var k := if j < i then j else j + 1;
        assert st'.runs[j] == st.runs[k] && st.at[st.runs[k].runID] == k;
      }
    }
  }

  /** What a step does to the runs it does not name, and to the names. */
  ghost predicate Stepped(st: Fold, r: RunRecord, st': Fold)
    requires Bijective(st)
  {
    && Bijective(st') && st.ended <= st'.ended
    && (forall id | id in st'.at && id != r.runID :: id in st.at && st'.runs[st'.at[id]] == st.runs[st.at[id]])
    && (forall id | id in st'.at && id in st'.ended :: id in st.ended || id == r.runID)
    && (r.runID in st'.at ==> r.runID in st.at || r.runID !in st.ended)
  }

  lemma {:induction false} TakenStepped(st: Fold, r: RunRecord, sid: string)
    requires Bijective(st) && r.sessionID == sid && r.runID !in st.ended && Replacing(r) && r.replaced in st.at
    requires r.runID == r.replaced || r.runID !in st.at
    ensures Stepped(st, r, Step(st, r, sid))
  {
  }

  lemma {:induction false} MarkedStepped(st: Fold, r: RunRecord, sid: string)
    requires Bijective(st) && r.sessionID == sid && r.runID !in st.ended && !r.action.Settled?
    requires Replacing(r) ==> r.replaced !in st.at
    ensures Stepped(st, r, Step(st, r, sid))
  {
  }

  lemma {:induction false} EndedStepped(st: Fold, r: RunRecord, sid: string)
    requires Bijective(st) && r.sessionID == sid && r.runID !in st.ended && r.action.Settled?
    ensures Stepped(st, r, Step(st, r, sid))
  {
    RemovedBijective(st.(ended := st.ended + {r.runID}), r.runID);
    hide Removed;
    assert Removed(st.(ended := st.ended + {r.runID}), r.runID).ended == st.ended + {r.runID} by {
      RemovedEnded(st.(ended := st.ended + {r.runID}), r.runID);
    }
  }

  lemma {:induction false} RemovedEnded(st: Fold, id: string)
    requires Indexed(st)
    ensures Removed(st, id).ended == st.ended
  {
  }

  lemma {:induction false} StepStepped(st: Fold, r: RunRecord, sid: string)
    requires Bijective(st) && (r.sessionID == sid ==> !Doubles(st, r))
    ensures Stepped(st, r, Step(st, r, sid))
  {
    if r.sessionID == sid && r.runID !in st.ended {
      hide Step, Stepped;
      if r.action.Settled? {
        EndedStepped(st, r, sid);
      } else if Replacing(r) && r.replaced in st.at {
        TakenStepped(st, r, sid);
      } else {
        MarkedStepped(st, r, sid);
      }
    }
  }

  lemma {:induction false} StepClean(st: Fold, r: RunRecord, sid: string)
    requires Clean(st) && (r.sessionID == sid ==> !Collides(st, r))
    ensures Clean(Step(st, r, sid))
  {
    StepStepped(st, r, sid);
    if r.sessionID == sid && r.runID !in st.ended && r.action.Settled? {
      RemovedBijective(st.(ended := st.ended + {r.runID}), r.runID);
    }
  }

  /** An open run's own fold follows the store's. */
  lemma {:induction false} StepExplained(st: Fold, e: Fold, r: RunRecord, sid: string)
    requires Bijective(st) && Indexed(e) && Single(e, r.runID) && Belongs(r, sid, r.runID) && !Doubles(st, r)
    requires r.runID in st.at && r.runID !in st.ended
    requires e.runs == [st.runs[st.at[r.runID]]] && e.ended <= st.ended && e.ended !! st.at.Keys - {r.runID}
    ensures var st', e' := Step(st, r, sid), Step(e, r, sid);
      && r.runID in st'.at && st'.at[r.runID] < |st'.runs| && e'.runs == [st'.runs[st'.at[r.runID]]]
      && e'.ended <= st'.ended && e'.ended !! st'.at.Keys - {r.runID} && (r.runID in st'.ended ==> r.runID in e'.ended)
  {
  }

  /** A run the store does not know is what its one record says, given its root. */
  lemma {:induction false} StepFresh(st: Fold, r: RunRecord, sid: string)
    requires Bijective(st) && Belongs(r, sid, r.runID) && r.runID !in st.at && r.runID !in st.ended
    requires Replacing(r) && r.replaced in st.at ==> r.root != ""
    ensures var st', e' := Step(st, r, sid), Step(EMPTY, r, sid);
      && r.runID in st'.at && st'.at[r.runID] < |st'.runs| && e'.runs == [st'.runs[st'.at[r.runID]]]
      && e'.ended <= st'.ended && e'.ended !! st'.at.Keys - {r.runID} && (r.runID in st'.ended ==> r.runID in e'.ended)
  {
  }

  /** A replacement of an open run carries a root once it is stamped. */
  lemma {:induction false} StampedRooted(rs: seq<RunRecord>, r: RunRecord)
    requires Tidy(rs, r.sessionID)
    ensures Replacing(r) && r.replaced in FoldOver(rs, r.sessionID).at ==> StampedOf(rs, r).root != ""
  {
    hide FoldFrom, Group, OwnFold;
    var st := FoldOver(rs, r.sessionID);
    StampedRoot(rs, r);
    if Replacing(r) && r.replaced in st.at {
      var i := st.at[r.replaced];
      assert Explained(rs, r.sessionID, st, st.runs[i].runID, st.runs[i]);
      GroupOwn(rs, r.sessionID, r.replaced);
      RootNamed(Group(rs, r.sessionID, r.replaced), r.sessionID, r.replaced);
    }
  }

  lemma {:induction false} OwnSnoc(g: seq<RunRecord>, r: RunRecord, sid: string)
    ensures OwnFold(g + [r], sid) == Step(OwnFold(g, sid), r, sid) && OwnFold([], sid) == EMPTY
  {
    assert (g + [r])[..|g|] == g;
  }

  /** The run a stamped record names is explained by its own records once the record is among them. */
  lemma {:induction false} NamedExplained(rs: seq<RunRecord>, r: RunRecord, sid: string)
    requires Tidy(rs, sid) && Belongs(r, sid, r.runID) && !Doubles(FoldOver(rs, sid), r)
    requires Replacing(r) && r.replaced in FoldOver(rs, sid).at && r.runID !in FoldOver(rs, sid).at ==> r.root != ""
    requires r.runID in Step(FoldOver(rs, sid), r, sid).at
    ensures var st' := Step(FoldOver(rs, sid), r, sid);
      st'.at[r.runID] < |st'.runs| && Explained(rs + [r], sid, st', r.runID, st'.runs[st'.at[r.runID]])
  {
    hide FoldFrom, Group, OwnFold;
    var st, id := FoldOver(rs, sid), r.runID;
    GroupSnoc(rs, r, sid, id);
    OwnSnoc(Group(rs, sid, id), r, sid);
    if id in st.at {
      assert Explained(rs, sid, st, st.runs[st.at[id]].runID, st.runs[st.at[id]]);
      GroupOwn(rs, sid, id);
      FoldBeside(EMPTY, Group(rs, sid, id), sid, id);
      if id !in st.ended {
        StepExplained(st, OwnFold(Group(rs, sid, id), sid), r, sid);
      }
    } else {
      NoGroup(rs, sid, id);
      StepFresh(st, r, sid);
    }
  }

  /** A run no record names stays explained. */
  lemma {:induction false} OtherExplained(rs: seq<RunRecord>, r: RunRecord, sid: string, st: Fold, st': Fold, id: string)
    requires Described(rs, sid, st) && Stepped(st, r, st') && id in st'.at && (id != r.runID || !Belongs(r, sid, id))
    requires id == r.runID ==> st' == st
    ensures st'.at[id] < |st'.runs| && Explained(rs + [r], sid, st', id, st'.runs[st'.at[id]])
  {
    hide Group, OwnFold;
    GroupSnoc(rs, r, sid, id);
    assert Explained(rs, sid, st, st.runs[st.at[id]].runID, st.runs[st.at[id]]);
    assert Group(rs, sid, id) + [] == Group(rs, sid, id);
  }

  lemma {:induction false} SettledOrOther(st: Fold, r: RunRecord, sid: string)
    requires Bijective(st) && !Belongs(r, sid, r.runID) && r.runID in Step(st, r, sid).at
    ensures Step(st, r, sid) == st
  {
    if r.sessionID == sid && r.runID !in st.ended && r.action.Settled? {
      RemovedBijective(st.(ended := st.ended + {r.runID}), r.runID);
    }
  }

  /** The stamped append to a tidy store folds to runs their records still describe. */
  lemma {:induction false} AppendDescribed(rs: seq<RunRecord>, r: RunRecord, sid: string)
    requires Tidy(rs, sid)
    requires r.sessionID == sid ==> !Doubles(FoldOver(rs, sid), r)
    ensures var all := rs + [StampedOf(rs, r)]; Described(all, sid, FoldOver(all, sid))
  {
    hide FoldFrom, Group, OwnFold, Step, Explained;
    var r' := StampedOf(rs, r);
    var all, st := rs + [r'], FoldOver(rs, sid);
    FoldSnoc(rs, r', sid);
    StepStepped(st, r', sid);
    var st' := FoldOver(all, sid);
    if r.sessionID == sid {
      StampedRooted(rs, r);
    }
    forall i | 0 <= i < |st'.runs|
      ensures Explained(all, sid, st', st'.runs[i].runID, st'.runs[i])
    {
      var id := st'.runs[i].runID;
      assert st'.at[id] == i;
      if id == r.runID && Belongs(r', sid, id) {
        NamedExplained(rs, r', sid);
      } else {
        if id == r.runID {
          SettledOrOther(st, r', sid);
        }
        OtherExplained(rs, r', sid, st, st', id);
      }
    }
  }

  /** What stays of a fold once its store is compacted. */
  ghost predicate Compacts(f: Fold, st: Fold) {
    && f.runs == st.runs && f.at == st.at && f.ended <= st.ended
    && forall id | id in st.at && id in st.ended :: id in f.ended
  }

  lemma {:induction false} KeptCompacts(all: seq<RunRecord>, sid: string, st: Fold, f: Fold)
    requires Described(all, sid, st) && Partly(all, sid, st, |st.runs|, f)
    ensures Compacts(f, st)
  {
    hide OwnFold, Group;
    assert st.runs[..|st.runs|] == st.runs;
    forall id | id in st.at && id in st.ended
      ensures id in f.ended
    {
      assert Explained(all, sid, st, st.runs[st.at[id]].runID, st.runs[st.at[id]]);
    }
  }

  lemma {:induction false} StillExplained(
    all: seq<RunRecord>, kept: seq<RunRecord>, sid: string, st: Fold, f: Fold, i: nat)
    requires Described(all, sid, st) && Partly(all, sid, st, |st.runs|, f) && Compacts(f, st) && i < |st.runs|
    requires Group(kept, sid, st.runs[i].runID) == Group(all, sid, st.runs[i].runID)
    ensures Explained(kept, sid, f, st.runs[i].runID, st.runs[i])
  {
    hide OwnFold, Group;
    assert Explained(all, sid, st, st.runs[i].runID, st.runs[i]);
  }

  /** One append, seen from any one session: the rewritten store folds to what the appended store
      folds to, and is tidy again. */
  lemma {:induction false} AppendOneSession(rs: seq<RunRecord>, r: RunRecord, sid: string)
    requires Tidy(rs, sid)
    requires r.sessionID == sid ==> !Doubles(FoldOver(rs, sid), r)
    ensures Compacts(FoldOver(KeptAfterOf(rs, r), sid), Step(FoldOver(rs, sid), StampedOf(rs, r), sid))
    ensures Tidy(KeptAfterOf(rs, r), sid)
  {
    hide FoldFrom, Group, Step, Compacts, Partly, Explained, KeptRuns, Belongs;
    var r' := StampedOf(rs, r);
    var all := rs + [r'];
    var ss := SessionsOf(all);
    var kept := KeptAfterOf(rs, r);
    var st' := FoldOver(all, sid);
    FoldSnoc(rs, r', sid);
    AppendDescribed(rs, r, sid);
    SessionsDistinct(all);
    KeptSessionsFold(all, ss, sid);
    var f := FoldOver(kept, sid);
    if sid !in ss {
      FoldOthers(EMPTY, all, sid);
      NothingCompacts();
      NoneTidy(kept, sid);
    } else {
      KeptRunsFold(all, sid, st', |st'.runs|);
      assert st'.runs[..|st'.runs|] == st'.runs;
      KeptCompacts(all, sid, st', f);
      CompactsParts(f, st');
      UptoAll(st');
      forall i | 0 <= i < |f.runs|
        ensures Explained(kept, sid, f, f.runs[i].runID, f.runs[i])
      {
        KeptSessionsGroup(all, ss, sid, f.runs[i].runID);
        KeptRunsGroup(all, sid, st', |st'.runs|, f.runs[i].runID);
        StillExplained(all, kept, sid, st', f, i);
      }
      BelongsParts(sid);
    }
  }

  lemma {:induction false} NothingCompacts()
    ensures Compacts(EMPTY, EMPTY)
  {
  }

  lemma {:induction false} NoneTidy(rs: seq<RunRecord>, sid: string)
    requires FoldOver(rs, sid) == EMPTY && forall r | r in rs :: r.sessionID != sid
    ensures Tidy(rs, sid)
  {
  }

  lemma {:induction false} CompactsParts(f: Fold, st: Fold)
    requires Compacts(f, st) && Bijective(st)
    ensures f.runs == st.runs && f.at == st.at && Bijective(f)
  {
  }

  lemma {:induction false} UptoAll(st: Fold)
    requires Bijective(st)
    ensures Upto(st.at, |st.runs|) == st.at
  {
  }

  lemma {:induction false} BelongsParts(sid: string)
    ensures forall r, id | Belongs(r, sid, id) :: !r.action.Settled?
  {
  }

  // ------------------------------------------------------------ appends that collide

  lemma {:induction false} SubsetSize(a: set<string>, b: set<string>)
    requires a <= b
    ensures |a| <= |b|
  {
    assert b == a + (b - a);
  }

  function IDsIn(rs: seq<RunRecord>, sid: string): set<string> {
    set r | r in rs && r.sessionID == sid :: r.runID
  }

  function Seen(st: Fold, ids: set<string>): set<string> {
    (st.at.Keys + st.ended) * ids
  }

  lemma {:induction false} StepNames(st: Fold, r: RunRecord, sid: string)
    requires Indexed(st)
    ensures var st' := Step(st, r, sid);
      && st.at.Keys + st.ended <= st'.at.Keys + st'.ended
      && (|st'.runs| <= |st.runs| ||
           (&& |st'.runs| == |st.runs| + 1 && r.sessionID == sid
            && r.runID !in st.at && r.runID !in st.ended && r.runID in st'.at))
  {
  }

  lemma {:induction false} StepSeen(st: Fold, r: RunRecord, sid: string, ids: set<string>)
    requires Indexed(st) && |st.runs| <= |Seen(st, ids)|
    requires r.sessionID == sid ==> r.runID in ids
    ensures |Step(st, r, sid).runs| <= |Seen(Step(st, r, sid), ids)|
  {
    hide Step, Indexed;
    StepNames(st, r, sid);
    var st' := Step(st, r, sid);
    if |st'.runs| > |st.runs| {
      assert r.runID !in Seen(st, ids);
      SubsetSize(Seen(st, ids) + {r.runID}, Seen(st', ids));
    } else {
      SubsetSize(Seen(st, ids), Seen(st', ids));
    }
  }

  /** A run is appended at most once under each id, so a fold never holds more runs than ids. */
  lemma {:induction false} FoldBound(rs: seq<RunRecord>, sid: string, ids: set<string>)
    requires IDsIn(rs, sid) <= ids
    ensures |FoldOver(rs, sid).runs| <= |ids|
    ensures |FoldOver(rs, sid).runs| <= |Seen(FoldOver(rs, sid), ids)|
    decreases |rs|
  {
    hide Step, Seen;
    if rs != [] {
      var front, r := rs[..|rs| - 1], rs[|rs| - 1];
      assert rs == front + [r];
      assert forall x | x in front :: x in rs;
      assert r in rs;
      FoldBound(front, sid, ids);
      StepSeen(FoldOver(front, sid), r, sid, ids);
    }
    SeenSize(FoldOver(rs, sid), ids);
  }

  lemma {:induction false} SeenSize(st: Fold, ids: set<string>)
    ensures |Seen(st, ids)| <= |ids| && (st == EMPTY ==> |st.runs| <= |Seen(st, ids)|)
  {
    SubsetSize(Seen(st, ids), ids);
  }

  function RunIDs(runs: seq<OpenRun>): set<string> {
    set run | run in runs :: run.runID
  }

  lemma {:induction false} RunIDsSize(runs: seq<OpenRun>)
    ensures |RunIDs(runs)| <= |runs|
    ensures forall i, j | 0 <= i < j < |runs| && runs[i].runID == runs[j].runID :: |RunIDs(runs)| < |runs|
    decreases |runs|
  {
    if runs != [] {
      var front, last := runs[..|runs| - 1], runs[|runs| - 1];
      RunIDsSize(front);
      assert runs == front + [last];
      assert RunIDs(runs) == RunIDs(front) + {last.runID};
      forall i, j | 0 <= i < j < |runs| && runs[i].runID == runs[j].runID
        ensures |RunIDs(runs)| < |runs|
      {
        if j == |front| {
          assert front[i] in front;
          assert RunIDs(runs) == RunIDs(front);
        } else {
          assert front[i] == runs[i] && front[j] == runs[j];
        }
      }
    }
  }

  lemma {:induction false} KeptRunsIDs(all: seq<RunRecord>, sid: string, runs: seq<OpenRun>)
    ensures IDsIn(KeptRuns(all, sid, runs), sid) <= RunIDs(runs)
    decreases |runs|
  {
    if runs != [] {
      var front, last := runs[..|runs| - 1], runs[|runs| - 1];
      KeptRunsIDs(all, sid, front);
      GroupMembers(all, sid, last.runID);
      assert last in runs && forall run | run in front :: run in runs;
      forall r | r in KeptRuns(all, sid, runs) && r.sessionID == sid
        ensures r.runID in RunIDs(runs)
      {
        if r in KeptRuns(all, sid, front) {
          assert r.runID in IDsIn(KeptRuns(all, sid, front), sid);
        }
      }
    }
  }

  /** A session whose fold holds one id twice is folded to fewer runs once it is compacted. */
  lemma {:induction false} TwiceLosesRun(rs: seq<RunRecord>, r: RunRecord, sid: string, i: nat, j: nat)
    requires var runs := OpenRunsOf(rs + [StampedOf(rs, r)], sid); i < j < |runs| && runs[i].runID == runs[j].runID
    ensures |OpenRunsOf(KeptAfterOf(rs, r), sid)| < |OpenRunsOf(rs + [StampedOf(rs, r)], sid)|
  {
    var all := rs + [StampedOf(rs, r)];
    var runs, ss := OpenRunsOf(all, sid), SessionsOf(all);
    SessionsDistinct(all);
    KeptSessionsFold(all, ss, sid);
    RunIDsSize(runs);
    if sid in ss {
      KeptRunsIDs(all, sid, runs);
      FoldBound(KeptRuns(all, sid, runs), sid, RunIDs(runs));
    }
  }

  lemma {:induction false} CollisionUnclean(st: Fold, r: RunRecord, sid: string)
    requires Clean(st) && Collides(st, r) && r.sessionID == sid
    ensures !Clean(Step(st, r, sid))
  {
    if r.runID == r.replaced {
      assert r.runID in Step(st, r, sid).at && r.runID in Step(st, r, sid).ended;
    } else {
      DoubledRuns(st, r, sid);
    }
  }

  lemma {:induction false} DoubledRuns(st: Fold, r: RunRecord, sid: string)
    requires Bijective(st) && Doubles(st, r) && r.sessionID == sid
    ensures exists i, j :: 0 <= i < j < |Step(st, r, sid).runs| && Step(st, r, sid).runs[i].runID == Step(st, r, sid).runs[j].runID
  {
    var st' := Step(st, r, sid);
    var i, j := st.at[r.runID], st.at[r.replaced];
    assert st'.runs[i].runID == r.runID && st'.runs[j].runID == r.runID;
    var low, high := if i < j then i else j, if i < j then j else i;
    assert low < high < |st'.runs| && st'.runs[low].runID == st'.runs[high].runID;
  }

  /** One append keeps the meaning of the store for every session at once, exactly when the record
      does not replace one open run under the id of another. */
  lemma {:induction false} AppendKeepsMeaning(rs: seq<RunRecord>, r: RunRecord)
    requires forall sid :: Tidy(rs, sid)
    ensures (forall sid :: OpenRunsOf(KeptAfterOf(rs, r), sid) == OpenRunsOf(rs + [StampedOf(rs, r)], sid))
      <==> !Doubles(FoldOver(rs, r.sessionID), r)
  {
    hide Described, FoldFrom, Step;
    var all, own := rs + [StampedOf(rs, r)], r.sessionID;
    assert Tidy(rs, own);
    if Doubles(FoldOver(rs, own), r) {
      FoldSnoc(rs, StampedOf(rs, r), own);
      TidyBijective(rs, own);
      DoubledRuns(FoldOver(rs, own), StampedOf(rs, r), own);
      var runs := OpenRunsOf(all, own);
      var i, j :| 0 <= i < j < |runs| && runs[i].runID == runs[j].runID;
      TwiceLosesRun(rs, r, own, i, j);
    } else {
      forall sid
        ensures OpenRunsOf(KeptAfterOf(rs, r), sid) == OpenRunsOf(all, sid)
      {
        assert Tidy(rs, sid);
        AppendOneSession(rs, r, sid);
        FoldSnoc(rs, StampedOf(rs, r), sid);
      }
    }
  }

  lemma {:induction false} TidyBijective(rs: seq<RunRecord>, sid: string)
    requires Tidy(rs, sid)
    ensures Bijective(FoldOver(rs, sid))
  {
    hide Explained;
  }

  /** One append leaves every session's run-to-slot map a bijection with no ended run open, exactly
      when the record does not replace a run under its own id or under the id of another open one. */
  lemma {:induction false} AppendKeepsMap(rs: seq<RunRecord>, r: RunRecord)
    requires forall sid :: Clean(FoldOver(rs, sid))
    ensures (forall sid :: Clean(FoldOver(rs + [StampedOf(rs, r)], sid))) <==> !Collides(FoldOver(rs, r.sessionID), r)
  {
    hide FoldFrom, Clean, Step;
    var all, own := rs + [StampedOf(rs, r)], r.sessionID;
    FoldSnoc(rs, StampedOf(rs, r), own);
    assert Clean(FoldOver(rs, own));
    if Collides(FoldOver(rs, own), r) {
      CollisionUnclean(FoldOver(rs, own), StampedOf(rs, r), own);
      assert !Clean(FoldOver(all, own));
    } else {
      forall sid
        ensures Clean(FoldOver(all, sid))
      {
        assert Clean(FoldOver(rs, sid));
        FoldSnoc(rs, StampedOf(rs, r), sid);
        StepClean(FoldOver(rs, sid), StampedOf(rs, r), sid);
      }
    }
  }

  // ------------------------------------------------------------ whole histories

  /** The store after a history of appends. */
  function StoreAfter(hs: seq<RunRecord>): seq<RunRecord> {
    if hs == [] then [] else KeptAfterOf(StoreAfter(hs[..|hs| - 1]), hs[|hs| - 1])
  }

  /** An unsettling record of a run that ended, which the compacted store does not remember. */
  predicate Reopens(f: Fold, st: Fold, r: RunRecord) {
    r.runID in st.ended && r.runID !in f.ended && !r.action.Settled?
  }

  function Kept(hs: seq<RunRecord>, sid: string): Fold {
    FoldOver(StoreAfter(hs), sid)
  }

  /** Whether a record may follow a history without a run being lost or opened again. */
  predicate KeepsRuns(hs: seq<RunRecord>, r: RunRecord) {
    !Doubles(FoldOver(hs, r.sessionID), r) && !Reopens(Kept(hs, r.sessionID), FoldOver(hs, r.sessionID), r)
  }

  /** Whether, besides, it leaves no run both open and ended. */
  predicate Follows(hs: seq<RunRecord>, r: RunRecord) {
    KeepsRuns(hs, r) && !Collides(FoldOver(hs, r.sessionID), r)
  }

  predicate AllKeepRuns(hs: seq<RunRecord>) {
    forall i | 0 <= i < |hs| :: KeepsRuns(hs[..i], hs[i])
  }

  predicate Legal(hs: seq<RunRecord>) {
    forall i | 0 <= i < |hs| :: Follows(hs[..i], hs[i])
  }

  /** The compacted store has the open runs of the whole history. */
  ghost predicate Means(hs: seq<RunRecord>) {
    forall sid :: OpenRunsOf(StoreAfter(hs), sid) == OpenRunsOf(hs, sid)
  }

  /** The map of every session is a bijection with no ended run open. */
  ghost predicate AllClean(hs: seq<RunRecord>) {
    forall sid :: Clean(FoldOver(hs, sid))
  }

  ghost predicate Linked(hs: seq<RunRecord>, sid: string) {
    Tidy(StoreAfter(hs), sid) && Compacts(Kept(hs, sid), FoldOver(hs, sid))
  }

  lemma {:induction false} StoreSnoc(hs: seq<RunRecord>, r: RunRecord)
    ensures StoreAfter(hs + [r]) == KeptAfterOf(StoreAfter(hs), r)
  {
    assert (hs + [r])[..|hs|] == hs;
  }

  ghost predicate StampedFor(st: Fold, r: RunRecord, r': RunRecord)
    requires Indexed(st)
  {
    r' == if Replacing(r) && r.root == "" && r.replaced in st.at then r.(root := st.runs[st.at[r.replaced]].root) else r
  }

  lemma {:induction false} SettledCompacts(st: Fold, f: Fold, r: RunRecord, sid: string)
    requires Bijective(f) && Compacts(f, st) && Indexed(st) && r.sessionID == sid && r.action.Settled?
    ensures Compacts(Step(f, r, sid), Step(st, r, sid))
  {
    if r.runID !in f.ended {
      RemovedBijective(f.(ended := f.ended + {r.runID}), r.runID);
    }
  }

  lemma {:induction false} UnsettledCompacts(st: Fold, f: Fold, r: RunRecord, r': RunRecord, sid: string)
    requires Bijective(f) && Compacts(f, st) && Indexed(st) && r.sessionID == sid && !r.action.Settled?
    requires !Reopens(f, st, r) && StampedFor(f, r, r') && !Doubles(f, r)
    ensures Compacts(Step(f, r', sid), Step(st, r, sid))
  {
  }

  /** A stamped record moves the compacted fold as the bare record moves the full one. */
  lemma {:induction false} StepCompacts(st: Fold, f: Fold, r: RunRecord, r': RunRecord, sid: string)
    requires Bijective(f) && Compacts(f, st) && Indexed(st) && r'.sessionID == r.sessionID
    requires r.sessionID == sid ==> !Reopens(f, st, r) && StampedFor(f, r, r')
    requires r.sessionID == sid ==> !Doubles(f, r)
    ensures Compacts(Step(f, r', sid), Step(st, r, sid))
  {
    if r.sessionID == sid {
      hide Step, Compacts, Reopens, Doubles, Bijective;
      if r.action.Settled? {
        SettledCompacts(st, f, r, sid);
      } else {
        UnsettledCompacts(st, f, r, r', sid);
      }
    }
  }

  lemma {:induction false} CompactsThen(f: Fold, m: Fold, st: Fold)
    requires Compacts(f, m) && Compacts(m, st)
    ensures Compacts(f, st)
  {
  }

  lemma {:induction false} SameDoubles(f: Fold, st: Fold, r: RunRecord)
    requires Compacts(f, st)
    ensures Doubles(st, r) ==> Doubles(f, r)
    ensures !Doubles(st, r) && Reopens(f, st, r) ==> !Doubles(f, r)
    ensures !Doubles(st, r) && !Reopens(f, st, r) ==> !Doubles(f, r)
  {
  }

  /** A record that keeps the runs keeps the store and the history together, for any session. */
  lemma {:induction false} KeepsLinked(hs: seq<RunRecord>, r: RunRecord, sid: string)
    requires Linked(hs, sid) && (r.sessionID == sid ==> KeepsRuns(hs, r))
    ensures Linked(hs + [r], sid)
  {
    hide Tidy, Bijective, FoldFrom, Step, Compacts, Doubles, Reopens;
    var rs, st := StoreAfter(hs), FoldOver(hs, sid);
    StoreSnoc(hs, r);
    FoldSnoc(hs, r, sid);
    TidyBijective(rs, sid);
    if r.sessionID == sid {
      StampedRoot(rs, r);
      SameDoubles(FoldOver(rs, sid), st, r);
    }
    StepCompacts(st, FoldOver(rs, sid), r, StampedOf(rs, r), sid);
    AppendOneSession(rs, r, sid);
    CompactsThen(FoldOver(KeptAfterOf(rs, r), sid), Step(FoldOver(rs, sid), StampedOf(rs, r), sid), Step(st, r, sid));
  }

  lemma {:induction false} DoubledSame(st: Fold, f: Fold, r: RunRecord, r': RunRecord, sid: string)
    requires Bijective(f) && Compacts(f, st) && Indexed(st) && r.sessionID == sid && StampedFor(f, r, r') && Doubles(st, r)
    ensures Step(f, r', sid).runs == Step(st, r, sid).runs
  {
  }

  lemma {:induction false} ReopenedRuns(st: Fold, f: Fold, r: RunRecord, r': RunRecord, sid: string)
    requires Bijective(f) && Compacts(f, st) && Indexed(st) && Reopens(f, st, r) && r.sessionID == sid && StampedFor(f, r, r')
    ensures Step(f, r', sid).runs != Step(st, r, sid).runs
  {
    var f' := Step(f, r', sid);
    assert r.runID in f'.at;
    assert f'.runs[f'.at[r.runID]].runID == r.runID;
    assert forall i | 0 <= i < |f.runs| :: f.runs[i].runID in f.at;
  }

  /** Any other record parts the store from the history. */
  lemma {:induction false} OtherwiseParts(hs: seq<RunRecord>, r: RunRecord)
    requires Linked(hs, r.sessionID) && !KeepsRuns(hs, r)
    ensures !Means(hs + [r])
  {
    hide Tidy, Bijective, FoldFrom, Step, Compacts, Doubles, Reopens;
    var sid := r.sessionID;
    var rs, st := StoreAfter(hs), FoldOver(hs, r.sessionID);
    var f, r' := FoldOver(rs, sid), StampedOf(rs, r);
    StoreSnoc(hs, r);
    FoldSnoc(hs, r, sid);
    FoldSnoc(rs, r', sid);
    TidyBijective(rs, sid);
    StampedRoot(rs, r);
    SameDoubles(f, st, r);
    if Doubles(st, r) {
      StampedDoubles(f, r, r');
      DoubledRuns(f, r', sid);
      DoubledSame(st, f, r, r', sid);
      var runs := OpenRunsOf(rs + [r'], sid);
      var i, j :| 0 <= i < j < |runs| && runs[i].runID == runs[j].runID;
      TwiceLosesRun(rs, r, sid, i, j);
    } else {
      AppendOneSession(rs, r, sid);
      CompactedRuns(FoldOver(KeptAfterOf(rs, r), sid), Step(f, r', sid));
      ReopenedRuns(st, f, r, r', sid);
    }
    assert OpenRunsOf(StoreAfter(hs + [r]), sid) != OpenRunsOf(hs + [r], sid);
  }

  lemma {:induction false} StampedDoubles(f: Fold, r: RunRecord, r': RunRecord)
    requires r' == r.(root := r'.root)
    ensures Doubles(f, r') == Doubles(f, r)
  {
  }

  lemma {:induction false} CompactedRuns(f: Fold, st: Fold)
    requires Compacts(f, st)
    ensures f.runs == st.runs
  {
  }

  lemma {:induction false} NothingLinked(sid: string)
    ensures Linked([], sid)
  {
    assert Group([], sid, "") == [];
  }

  lemma {:induction false} HistoryLinked(hs: seq<RunRecord>, sid: string)
    requires AllKeepRuns(hs)
    ensures Linked(hs, sid)
    decreases |hs|
  {
    hide Linked, KeepsRuns, AllKeepRuns;
    if hs == [] {
      NothingLinked(sid);
    } else {
      var front, r := hs[..|hs| - 1], hs[|hs| - 1];
      KeepingPrefix(hs);
      HistoryLinked(front, sid);
      assert hs == front + [r];
      KeepsLinked(front, r, sid);
    }
  }

  lemma {:induction false} KeepingPrefix(hs: seq<RunRecord>)
    requires AllKeepRuns(hs) && hs != []
    ensures AllKeepRuns(hs[..|hs| - 1]) && KeepsRuns(hs[..|hs| - 1], hs[|hs| - 1])
  {
    hide KeepsRuns;
    KeepingUpto(hs, |hs| - 1);
  }

  lemma {:induction false} KeepingUpto(hs: seq<RunRecord>, n: nat)
    requires AllKeepRuns(hs) && n <= |hs|
    ensures AllKeepRuns(hs[..n])
  {
    hide KeepsRuns;
    forall i | 0 <= i < n
      ensures KeepsRuns(hs[..n][..i], hs[..n][i])
    {
      assert hs[..n][..i] == hs[..i] && hs[..n][i] == hs[i];
    }
  }

  lemma {:induction false} KeptMeans(hs: seq<RunRecord>)
    requires AllKeepRuns(hs)
    ensures Means(hs)
  {
    hide Tidy, AllKeepRuns;
    forall sid
      ensures OpenRunsOf(StoreAfter(hs), sid) == OpenRunsOf(hs, sid)
    {
      HistoryLinked(hs, sid);
    }
  }

  lemma {:induction false} FirstLoss(hs: seq<RunRecord>)
    requires !AllKeepRuns(hs)
    ensures exists n :: 0 <= n <= |hs| && !Means(hs[..n])
    decreases |hs|
  {
    hide Means, KeepsRuns, Linked;
    var front, r := hs[..|hs| - 1], hs[|hs| - 1];
    assert hs == front + [r] && hs[..|hs|] == hs;
    if AllKeepRuns(front) {
      HistoryLinked(front, r.sessionID);
      assert forall i | 0 <= i < |front| :: front[..i] == hs[..i] && front[i] == hs[i];
      OtherwiseParts(front, r);
    } else {
      FirstLoss(front);
      var n :| 0 <= n <= |front| && !Means(front[..n]);
      assert front[..n] == hs[..n];
    }
  }

  /** The compacted store has, after every prefix of a history and for every session, exactly the
      open runs of the whole prefix (order, request, started flag and root), if and only if no record
      replaces one open run under the id of another, and none that does not settle its run names one
      that ended and that the store has forgotten. */
  lemma {:induction false} CompactionKeepsRuns(hs: seq<RunRecord>)
    ensures (forall n | 0 <= n <= |hs| :: Means(hs[..n])) <==> AllKeepRuns(hs)
  {
    hide Means, KeepsRuns, AllKeepRuns;
    if AllKeepRuns(hs) {
      forall n | 0 <= n <= |hs|
        ensures Means(hs[..n])
      {
        KeepingUpto(hs, n);
        KeptMeans(hs[..n]);
      }
    } else {
      FirstLoss(hs);
    }
  }

  lemma {:induction false} CleanUpto(hs: seq<RunRecord>, n: nat, sid: string)
    requires n <= |hs| && forall i | 0 <= i < n :: !Collides(FoldOver(hs[..i], hs[i].sessionID), hs[i])
    ensures Clean(FoldOver(hs[..n], sid))
    decreases n
  {
    hide Collides, Clean, Step, FoldFrom;
    if n == 0 {
      NothingFolded(sid);
      NothingClean();
    } else {
      CleanUpto(hs, n - 1, sid);
      assert hs[..n] == hs[..n - 1] + [hs[n - 1]];
      FoldSnoc(hs[..n - 1], hs[n - 1], sid);
      StepClean(FoldOver(hs[..n - 1], sid), hs[n - 1], sid);
    }
  }

  lemma {:induction false} NothingClean()
    ensures Clean(EMPTY)
  {
  }

  lemma {:induction false} CollisionSoils(hs: seq<RunRecord>, n: nat)
    requires n < |hs| && Collides(FoldOver(hs[..n], hs[n].sessionID), hs[n])
    ensures !AllClean(hs[..n]) || !AllClean(hs[..n + 1])
  {
    hide Collides, Clean, Step, FoldFrom;
    var sid := hs[n].sessionID;
    assert hs[..n + 1] == hs[..n] + [hs[n]];
    FoldSnoc(hs[..n], hs[n], sid);
    if AllClean(hs[..n]) {
      assert Clean(FoldOver(hs[..n], sid));
      CollisionUnclean(FoldOver(hs[..n], sid), hs[n], sid);
      assert !Clean(FoldOver(hs[..n + 1], sid));
    }
  }

  /** Likewise for the open runs and the map together: after every prefix the store means what the
      history means, over a map that is a bijection with no ended run open, if and only if, besides,
      no record replaces a run under its own id. */
  lemma {:induction false} CompactionKeepsMeaning(hs: seq<RunRecord>)
    ensures (forall n | 0 <= n <= |hs| :: Means(hs[..n]) && AllClean(hs[..n])) <==> Legal(hs)
  {
    hide Means, KeepsRuns, Clean, Collides, FoldFrom;
    CompactionKeepsRuns(hs);
    if Legal(hs) {
      forall n | 0 <= n <= |hs|
        ensures AllClean(hs[..n])
      {
        forall sid
          ensures Clean(FoldOver(hs[..n], sid))
        {
          CleanUpto(hs, n, sid);
        }
      }
    } else if AllKeepRuns(hs) {
      var n :| 0 <= n < |hs| && !Follows(hs[..n], hs[n]);
      CollisionSoils(hs, n);
    }
  }

  /** A history in which a run is replaced by another. */
  predicate Replaced(held: RunRecord, again: RunRecord) {
    && held.action.Admitted? && held.replaced == "" && held.runID != ""
    && again.action.Admitted? && again.replaced == held.runID != again.runID && again.sessionID == held.sessionID
  }

  lemma {:induction false} HeldFolds(held: RunRecord)
    requires held.action.Admitted? && held.replaced == ""
    ensures FoldOver([held], held.sessionID) == Fold([Mark(Opened(held), held)], map[held.runID := 0], {})
  {
    assert [held] == [] + [held];
    FoldSnoc([], held, held.sessionID);
  }

  lemma {:induction false} ReplacedFolds(held: RunRecord, again: RunRecord)
    requires Replaced(held, again)
    ensures var st := FoldOver([held, again], held.sessionID);
      st.at == map[again.runID := 0] && st.ended == {held.runID}
  {
    hide FoldFrom;
    assert [held, again] == [held] + [again];
    HeldFolds(held);
    FoldSnoc([held], again, held.sessionID);
  }

  lemma {:induction false} ReplacedKeeps(held: RunRecord, again: RunRecord)
    requires Replaced(held, again)
    ensures Legal([held, again]) && AllKeepRuns([held]) && AllKeepRuns([held, again])
  {
    hide FoldFrom, StoreAfter, Step;
    var h1, h2 := [held], [held, again];
    assert h1[..0] == [] && h2[..0] == [] && h2[..1] == h1;
    HeldFolds(held);
    NothingFolded(held.sessionID);
    assert Follows([], held);
    assert Follows(h1, again);
  }

  /** The store remembers the run it replaced. */
  lemma {:induction false} ReplacedRemembered(held: RunRecord, again: RunRecord)
    requires Replaced(held, again)
    ensures held.runID in Kept([held, again], held.sessionID).ended
  {
    hide FoldFrom, StoreAfter, Step, KeepsRuns, AllKeepRuns, Tidy, KeptAfterOf;
    var sid, h1 := held.sessionID, [held];
    ReplacedKeeps(held, again);
    HistoryLinked(h1, sid);
    assert [held, again] == h1 + [again];
    StoreSnoc(h1, again);
    var rs := StoreAfter(h1);
    HeldFolds(held);
    FoldSnoc(rs, StampedOf(rs, again), sid);
    RememberedStep(FoldOver(rs, sid), held, again, StampedOf(rs, again), sid);
    RecordKept(rs, again, 0);
    HistoryLinked([held, again], sid);
    ReplacedFolds(held, again);
    RecordEnds(StoreAfter([held, again]), StampedOf(rs, again), sid);
  }

  lemma {:induction false} RememberedStep(f: Fold, held: RunRecord, again: RunRecord, r': RunRecord, sid: string)
    requires Replaced(held, again) && sid == held.sessionID && r' == again.(root := r'.root)
    requires Indexed(f) && |f.runs| == 1 && f.at == map[held.runID := 0] && f.ended == {}
    ensures |Step(f, r', sid).runs| == 1 && Step(f, r', sid).runs[0].runID == again.runID
  {
  }

  /** A store that holds a replacement by a run it knows remembers the run replaced. */
  lemma {:induction false} RecordEnds(rs: seq<RunRecord>, r: RunRecord, sid: string)
    requires r in rs && r.sessionID == sid && Replacing(r) && r.runID !in FoldOver(rs, sid).ended
    ensures r.replaced in FoldOver(rs, sid).ended
    decreases |rs|
  {
    hide Step;
    var front, last := rs[..|rs| - 1], rs[|rs| - 1];
    StepEnded(FoldOver(front, sid), last, sid);
    if r in front {
      RecordEnds(front, r, sid);
    } else {
      OneEnds(FoldOver(front, sid), r, sid);
    }
  }

  lemma {:induction false} OneEnds(st: Fold, r: RunRecord, sid: string)
    requires Indexed(st) && r.sessionID == sid && Replacing(r) && r.runID !in st.ended
    ensures r.replaced in Step(st, r, sid).ended
  {
  }

  /** A late record of a run replaced by an open one is passed over, whatever it says. */
  lemma {:induction false} LateRecordPassedOver(held: RunRecord, again: RunRecord, late: RunRecord)
    requires Replaced(held, again) && late.runID == held.runID && late.sessionID == held.sessionID
    ensures Legal([held, again, late]) && Means([held, again, late]) && AllClean([held, again, late])
    ensures OpenRunsOf([held, again, late], held.sessionID) == OpenRunsOf([held, again], held.sessionID)
  {
    hide Means, AllClean, StoreAfter, FoldFrom;
    var sid, h2, h3 := held.sessionID, [held, again], [held, again, late];
    ReplacedKeeps(held, again);
    ReplacedRemembered(held, again);
    ReplacedFolds(held, again);
    assert h3 == h2 + [late] && h3[..3] == h3 && h3[..2] == h2 && h3[..1] == h2[..1] && h3[..0] == h2[..0];
    FoldSnoc(h2, late, sid);
    assert Follows(h2, late);
    CompactionKeepsMeaning(h3);
  }

  lemma {:induction false} KeptRunsHold(all: seq<RunRecord>, sid: string, runs: seq<OpenRun>, i: nat)
    requires i < |runs|
    ensures forall r | r in Group(all, sid, runs[i].runID) :: r in KeptRuns(all, sid, runs)
    decreases |runs|
  {
    if i < |runs| - 1 {
      KeptRunsHold(all, sid, runs[..|runs| - 1], i);
    }
  }

  /** The record of a run left open by it is kept. */
  lemma {:induction false} RecordKept(rs: seq<RunRecord>, r: RunRecord, i: nat)
    requires !r.action.Settled?
    requires var runs := OpenRunsOf(rs + [StampedOf(rs, r)], r.sessionID); i < |runs| && runs[i].runID == r.runID
    ensures StampedOf(rs, r) in KeptAfterOf(rs, r)
  {
    var sid, r' := r.sessionID, StampedOf(rs, r);
    var all := rs + [r'];
    assert r' in all;
    SessionsDistinct(all);
    KeptSessionsFold(all, SessionsOf(all), sid);
    GroupMembers(all, sid, r.runID);
    KeptRunsHold(all, sid, OpenRunsOf(all, sid), i);
  }

  lemma {:induction false} SettledFolds(admit: RunRecord)
    requires admit.action.Admitted? && admit.replaced == ""
    ensures FoldOver([admit, admit.(action := Settled)], admit.sessionID) == Fold([], map[], {admit.runID})
  {
    var sid, settle := admit.sessionID, admit.(action := Settled);
    HeldFolds(admit);
    assert [admit, settle] == [admit] + [settle];
    FoldSnoc([admit], settle, sid);
  }

  lemma {:induction false} SettledKeeps(admit: RunRecord)
    requires admit.action.Admitted? && admit.replaced == ""
    ensures AllKeepRuns([admit, admit.(action := Settled)])
  {
    hide FoldFrom, StoreAfter, Step;
    var h1, h2 := [admit], [admit, admit.(action := Settled)];
    assert h2[..0] == [] && h2[..1] == h1;
    NothingFolded(admit.sessionID);
    assert KeepsRuns([], admit) && KeepsRuns(h1, h2[1]);
  }

  /** A settled run admitted again is open in the compacted store only. */
  lemma {:induction false} ReopeningLosesMeaning(admit: RunRecord)
    requires admit.action.Admitted? && admit.replaced == ""
    ensures var hs := [admit, admit.(action := Settled), admit];
      OpenRunsOf(StoreAfter(hs), admit.sessionID) != OpenRunsOf(hs, admit.sessionID)
  {
    hide FoldFrom, StoreAfter, KeptAfterOf, AllKeepRuns, Tidy;
    var sid, h2 := admit.sessionID, [admit, admit.(action := Settled)];
    assert [admit, admit.(action := Settled), admit] == h2 + [admit];
    SettledFolds(admit);
    SettledKeeps(admit);
    FoldSnoc(h2, admit, sid);
    HistoryLinked(h2, sid);
    StoreSnoc(h2, admit);
    ForgottenOpens(StoreAfter(h2), admit);
  }

  /** A store that has forgotten a run opens it at its next admission. */
  lemma {:induction false} ForgottenOpens(rs: seq<RunRecord>, admit: RunRecord)
    requires admit.action.Admitted? && admit.replaced == "" && Tidy(rs, admit.sessionID)
    requires FoldOver(rs, admit.sessionID).runs == []
    ensures |OpenRunsOf(KeptAfterOf(rs, admit), admit.sessionID)| == 1
  {
    var sid := admit.sessionID;
    hide KeptAfterOf, Described, FoldFrom;
    NoRunsNoRecords(rs, sid);
    AppendOneSession(rs, admit, sid);
  }

  lemma {:induction false} NoRunsNoRecords(rs: seq<RunRecord>, sid: string)
    requires Tidy(rs, sid) && FoldOver(rs, sid).runs == []
    ensures FoldOver(rs, sid) == EMPTY
  {
    FoldOthers(EMPTY, rs, sid);
  }

  // ------------------------------------------------------------ the in-memory store

  /** The in-memory run store, beside the history it was given. */
  class MemoryRuns {
    var records: seq<RunRecord>
    ghost var history: seq<RunRecord>

    ghost predicate Valid()
      reads this
    {
      records == StoreAfter(history)
    }

    constructor ()
      ensures Valid() && records == [] && history == []
    {
      records, history := [], [];
    }

    method AppendRun(r: RunRecord)
      requires Valid()
      modifies this
      ensures Valid() && history == old(history) + [r]
      ensures records == KeptAfterOf(old(records), r)
    {
      records := KeptAfter(records, r);
      assert (history + [r])[..|history|] == history;
      history := history + [r];
    }

    method OpenRunsFor(sid: string) returns (runs: seq<OpenRun>)
      requires Valid()
      ensures runs == OpenRunsOf(records, sid)
      ensures AllKeepRuns(history) ==> runs == OpenRunsOf(history, sid)
    {
      hide AllKeepRuns;
      runs := OpenRuns(records, sid);
      if AllKeepRuns(history) {
        KeptMeans(history);
      }
    }
  }
}
