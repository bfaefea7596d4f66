/** The engine and the retained conversations agree at every await point of every orchestrated run. */
module RuntimeProofs {
  import opened Wrappers
  import opened Text
  import opened Workflows
  import opened Records
  import opened Engine
  import opened EngineInvariant
  import opened EngineSteps
  import opened EngineTransitions
  import opened EngineCheckpoints
  import opened Continuations
  import opened WorkflowRuntime

  // ---- The invariant ----

  /** A record that may own a conversation now: running, or retainable. */
  predicate Live(r: Record) {
    r.kind == Agent && (r.status == Running || Retainable(r))
  }

  predicate LiveRow(rs: seq<Record>, id: string) {
    exists k :: 0 <= k < |rs| && rs[k].id == id && Live(rs[k])
  }

  predicate RowsLive(rs: seq<Record>, rows: seq<Row>) {
    forall i :: 0 <= i < |rows| ==> LiveRow(rs, rows[i].recordId)
  }

  predicate Unsettled(rs: seq<Record>, id: string) {
    exists k :: 0 <= k < |rs| && rs[k].id == id && rs[k].kind == Agent && rs[k].status in {Running, Interrupted}
  }

  /** What the local variables of a call in flight guarantee about its eventual report. */
  predicate RoleOk(role: Role, aborted: bool) {
    && (role.error.Some? ==> role.error.value != "")
    && (role.outcome.Some? ==> role.outcome.value.summary != "" && Trimmed(role.outcome.value.summary))
    && (role.stage == Setup || role.stage == Prompting ==>
          !role.completedBeforeCancellation && role.resourceStop.None? && role.retained.None?)
    && (role.stage == Closing && role.retained.Some? ==>
          || role.error.Some? || role.resourceStop.Some?
          || (aborted && !role.completedBeforeCancellation)
          || role.outcome.None? || role.outcome.value.status != OutcomeCompleted)
  }

  predicate RolesOk(s: Runtime) {
    forall id :: id in s.roles && s.roles[id].stage != Finished ==>
      s.engine.Some? && Unsettled(s.engine.value.records, id) && RoleOk(s.roles[id], s.aborted)
  }

  ghost predicate Consistent(s: Runtime) {
    && (s.engine.Some? ==> Inv(s.engine.value) && RowsLive(s.engine.value.records, s.rows))
    && (s.engine.None? ==> s.rows == [])
    && DistinctRows(s.rows)
    && RolesOk(s)
    && (InFlight(s) ==> s.phaseBusy)
  }

  // ---- Rows ----

  predicate OtherRow(rows: seq<Row>, row: Row, id: string) {
    row in rows && row.recordId != id
  }

  lemma {:induction false} WithoutRows(rows: seq<Row>, id: string)
    ensures forall i :: 0 <= i < |Without(rows, id)| ==> OtherRow(rows, Without(rows, id)[i], id)
    ensures DistinctRows(rows) ==> DistinctRows(Without(rows, id))
  {
    if rows != [] {
      WithoutRows(rows[1..], id);
      var rest := Without(rows[1..], id);
      forall i | 0 <= i < |rest|
        ensures rest[i] in rows[1..]
      {
        assert OtherRow(rows[1..], rest[i], id);
      }
    }
  }

  lemma WithoutLive(rs: seq<Record>, rows: seq<Row>, id: string)
    requires RowsLive(rs, rows)
    ensures RowsLive(rs, Without(rows, id))
  {
    WithoutRows(rows, id);
    var r := Without(rows, id);
    forall i | 0 <= i < |r|
      ensures LiveRow(rs, r[i].recordId)
    {
      assert OtherRow(rows, r[i], id);
      var j :| 0 <= j < |rows| && rows[j] == r[i];
      assert LiveRow(rs, rows[j].recordId);
    }
  }

  /** Live records stay live. */
  predicate KeepsLive(a: seq<Record>, b: seq<Record>) {
    SameTopology(a, b) && forall i :: 0 <= i < |a| && Live(a[i]) ==> Live(b[i])
  }

  lemma RowsLiveKept(a: seq<Record>, b: seq<Record>, rows: seq<Row>)
    requires KeepsLive(a, b) && RowsLive(a, rows)
    ensures RowsLive(b, rows)
  {
    SameFields(a, b);
    forall i | 0 <= i < |rows|
      ensures LiveRow(b, rows[i].recordId)
    {
      assert LiveRow(a, rows[i].recordId);
      var k :| 0 <= k < |a| && a[k].id == rows[i].recordId && Live(a[k]);
      assert Live(b[k]);
    }
  }

  predicate NoneLive(rs: seq<Record>) {
    forall i :: 0 <= i < |rs| ==> !Live(rs[i])
  }

  lemma NoRows(rs: seq<Record>, rows: seq<Row>)
    requires NoneLive(rs) && RowsLive(rs, rows)
    ensures rows == []
  {
    assert rows != [] ==> LiveRow(rs, rows[0].recordId);
  }

  /** Nothing is live while the engine waits for anything but its agents. */
  lemma QuietEngine(s: EngineState)
    requires Inv(s)
    requires s.status in {StateReady, StateCompleted}
             || (s.status == StateWaiting && !PausedFor(s, ReportPause))
    ensures NoneLive(s.records)
  {
    CompiledIsStructured(s);
    var lo, hi := Located(s);
    QuietFrontier(s, lo, hi);
  }

  lemma QuietFrontier(s: EngineState, lo: nat, hi: nat)
    requires Structured(s.records) && Uniform(s.records) && ModeOk(s) && FrontierAt(s, lo, hi)
    requires s.status in {StateReady, StateCompleted}
             || (s.status == StateWaiting && !PausedFor(s, ReportPause))
    ensures NoneLive(s.records)
  {
    forall i | 0 <= i < |s.records|
      ensures !Live(s.records[i])
    {
      if lo <= i < hi {
        SameBatch(s.records, i, lo);
        assert s.records[lo].status == Pending ==> s.records[i].status == Pending;
      }
    }
  }

  // ---- Restoring at any await point ----

  lemma InterruptLive(rs: seq<Record>)
    ensures KeepsLive(rs, InterruptRecords(rs))
  {
    var c := InterruptRecords(rs);
    forall i | 0 <= i < |rs|
      ensures Topology(rs[i]) == Topology(c[i])
    {
    }
  }

  lemma NoneRunning(s: EngineState)
    requires Inv(s) && s.status != StateRunning
    ensures forall i :: 0 <= i < |s.records| ==> s.records[i].status != Running
  {
    ParseAccepts(s);
    forall i | 0 <= i < |s.records|
      ensures s.records[i].status != Running
    {
      assert AcceptsRecord(s, s.records[i]);
    }
  }

  lemma LiveButNotRunning(rs: seq<Record>, rows: seq<Row>, i: nat)
    requires RowsLive(rs, rows) && i < |rows| && forall k :: 0 <= k < |rs| ==> rs[k].status != Running
    ensures HasRetainable(rs, rows[i].recordId)
  {
    assert LiveRow(rs, rows[i].recordId);
    var k :| 0 <= k < |rs| && rs[k].id == rows[i].recordId && Live(rs[k]);
    assert Retainable(rs[k]);
  }

  lemma ValidWhen(engine: EngineState, rows: seq<Row>)
    requires DistinctRows(rows)
    requires rows != [] ==> PausedEngine(Some(engine))
    requires forall i :: 0 <= i < |rows| ==> HasRetainable(engine.records, rows[i].recordId)
    ensures ValidContinuations(Some(engine), rows, true)
  {
  }

  lemma RestoredRows(engine: EngineState, restored: EngineState, rows: seq<Row>)
    requires Inv(engine) && RowsLive(engine.records, rows) && DistinctRows(rows)
    requires restored == if engine.status == StateRunning then InterruptEngine(engine, WasInterrupted) else engine
    ensures ValidContinuations(Some(restored), rows, true)
  {
    InterruptLive(engine.records);
    if engine.status == StateRunning {
      RowsLiveKept(engine.records, restored.records, rows);
      InterruptKeeps(engine, WasInterrupted);
    }
    NoneRunning(restored);
    if rows != [] && restored.status in {StateReady, StateCompleted} {
      QuietEngine(restored);
      NoRows(restored.records, rows);
    }
    forall i | 0 <= i < |rows|
      ensures HasRetainable(restored.records, rows[i].recordId)
    {
      LiveButNotRunning(restored.records, rows, i);
    }
    ValidWhen(restored, rows);
  }

  /** A snapshot taken at any await point restores: its continuations pass the strict validation. */
  lemma SnapshotRestores(s: Runtime)
    requires Consistent(s)
    ensures s.engine.None? ==> ValidContinuations(None, s.rows, true)
    ensures s.engine.Some? ==>
      && RestoreEngine(s.engine.value).Success?
      && ValidContinuations(Some(RestoreEngine(s.engine.value).value), s.rows, true)
  {
    if s.engine.Some? {
      RestoreExact(s.engine.value);
      RestoredRows(s.engine.value, RestoreEngine(s.engine.value).value, s.rows);
    }
  }

  // ---- One role ----

  lemma FindUnique(rs: seq<Record>, k: nat)
    requires Structured(rs) && k < |rs|
    ensures FindId(rs, rs[k].id) == k
  {
    var j := FindId(rs, rs[k].id);
    assert j <= k;
  }

  lemma ResourceSummaryHolds()
    ensures ParseOutcome(RawOutcome(NeedsHuman, ResourceSummary, None, None)).Some?
  {
    var s := ResourceSummary;
    assert s[0] == 'R' && s[|s| - 1] == 't';
    TrimTrimmed(s);
  }

  /** A kept conversation is only ever recorded with a failure or a question. */
  lemma ConcludedNotCompleted(closed: Role, aborted: bool, r: Record)
    requires closed.stage == Closing && RoleOk(closed, aborted)
    requires r.kind == Agent && r.status == Running && Untouched(r)
    requires !aborted || closed.completedBeforeCancellation
    requires Concluded(closed).retained.Some?
    ensures Retainable(Settled(r, ReportOf(Concluded(closed))))
  {
    ResourceSummaryHolds();
  }

  lemma UnsettledKept(a: seq<Record>, b: seq<Record>, id: string)
    requires SameTopology(a, b) && Unsettled(a, id)
    requires forall i :: 0 <= i < |a| && a[i].id == id && a[i].status in {Running, Interrupted}
               ==> b[i].status in {Running, Interrupted}
    ensures Unsettled(b, id)
  {
    SameFields(a, b);
    var k :| 0 <= k < |a| && a[k].id == id && a[k].kind == Agent && a[k].status in {Running, Interrupted};
    assert b[k].id == id;
  }

  /** Appending a role's own row to the others. */
  lemma RowsReplaced(rows: seq<Row>, id: string, checkpoint: string, rs: seq<Record>)
    requires DistinctRows(rows) && RowsLive(rs, Without(rows, id)) && LiveRow(rs, id)
    ensures DistinctRows(Without(rows, id) + [Row(id, checkpoint)])
    ensures RowsLive(rs, Without(rows, id) + [Row(id, checkpoint)])
  {
    WithoutRows(rows, id);
    forall i | 0 <= i < |Without(rows, id)|
      ensures Without(rows, id)[i].recordId != id
    {
      assert OtherRow(rows, Without(rows, id)[i], id);
    }
  }

  lemma OthersLive(a: seq<Record>, b: seq<Record>, rows: seq<Row>, id: string)
    requires SameTopology(a, b) && RowsLive(a, rows)
    requires forall i :: 0 <= i < |a| && a[i].id != id ==> b[i] == a[i]
    ensures RowsLive(b, Without(rows, id))
  {
    SameFields(a, b);
    WithoutRows(rows, id);
    var r := Without(rows, id);
    forall i | 0 <= i < |r|
      ensures LiveRow(b, r[i].recordId)
    {
      assert OtherRow(rows, r[i], id);
      var j :| 0 <= j < |rows| && rows[j] == r[i];
      assert LiveRow(a, rows[j].recordId);
      var k :| 0 <= k < |a| && a[k].id == r[i].recordId && Live(a[k]);
      assert b[k] == a[k];
    }
  }

  lemma SelfTopology(rs: seq<Record>)
    ensures SameTopology(rs, rs)
  {
  }

  /** The engine after a role's tail: lawful, and only that role's record may have changed. */
  lemma RecordedEngine(s: Runtime, id: string, report: Engine.Report)
    requires s.engine.Some? && Inv(s.engine.value)
    ensures var r := RecordOutcome(s.engine.value, id, report);
            r.Success? ==>
              && Inv(r.value) && SameTopology(s.engine.value.records, r.value.records)
              && (forall i :: 0 <= i < |s.engine.value.records| && s.engine.value.records[i].id != id ==>
                    r.value.records[i] == s.engine.value.records[i])
  {
    if RecordOutcome(s.engine.value, id, report).Success? {
      RecordKeeps(s.engine.value, id, report);
    }
  }

  /** What the recorded engine says about the role's own record, given its place. */
  lemma RecordedLive(e: EngineState, id: string, k: nat, closed: Role, aborted: bool)
    requires k < |e.records| && FindId(e.records, id) == k && e.records[k].id == id
    requires e.records[k].kind == Agent && e.records[k].status in {Running, Interrupted} && LocalOk(e.records[k])
    requires closed.stage == Closing && RoleOk(closed, aborted) && Concluded(closed).retained.Some?
    requires !aborted || closed.completedBeforeCancellation
    requires RecordOutcome(e, id, ReportOf(Concluded(closed))).Success?
    ensures LiveRow(RecordOutcome(e, id, ReportOf(Concluded(closed))).value.records, id)
  {
    var report := ReportOf(Concluded(closed));
    var t := RecordOutcome(e, id, report).value;
    ConcludedNotCompleted(closed, aborted, e.records[k]);
    TopologyOfRecord(e.records[k], report);
    assert t.records[k] == Settled(e.records[k], report);
    assert Live(t.records[k]);
  }

  lemma UnsettledLive(rs: seq<Record>, id: string)
    requires Unsettled(rs, id)
    ensures LiveRow(rs, id)
  {
    var k :| 0 <= k < |rs| && rs[k].id == id && rs[k].kind == Agent && rs[k].status in {Running, Interrupted};
    assert Live(rs[k]);
  }

  /** The place of a role's record, for the lemmas that need no more of the engine's invariant. */
  lemma RolePlace(e: EngineState, id: string) returns (k: nat)
    requires Inv(e) && Unsettled(e.records, id)
    ensures k < |e.records| && FindId(e.records, id) == k && e.records[k].id == id
    ensures e.records[k].kind == Agent && e.records[k].status in {Running, Interrupted} && LocalOk(e.records[k])
  {
    CompiledIsStructured(e);
    k :| 0 <= k < |e.records| && e.records[k].id == id && e.records[k].kind == Agent
         && e.records[k].status in {Running, Interrupted};
    FindUnique(e.records, k);
  }

  /** If this role keeps a conversation, its record is live afterwards. */
  lemma FinishedRowLive(s: Runtime, id: string, closed: Role)
    requires s.engine.Some? && Inv(s.engine.value) && Unsettled(s.engine.value.records, id)
    requires closed.stage == Closing && RoleOk(closed, s.aborted) && Concluded(closed).retained.Some?
    ensures LiveRow(FinishedEngine(s, id, closed).records, id)
  {
    var e := s.engine.value;
    UnsettledLive(e.records, id);
    if Recorded(s, id, closed) {
      var k := RolePlace(e, id);
      RecordedLive(e, id, k, closed, s.aborted);
    }
  }

  lemma TopologyOfRecord(r: Record, report: Engine.Report)
    ensures Settled(r, report).id == r.id
  {
  }

  /** Conversations after a role's tail. */
  lemma FinishedRows(s: Runtime, id: string, closed: Role)
    requires s.engine.Some? && Inv(s.engine.value) && RowsLive(s.engine.value.records, s.rows) && DistinctRows(s.rows)
    requires Unsettled(s.engine.value.records, id) && closed.stage == Closing && RoleOk(closed, s.aborted)
    ensures Inv(FinishedEngine(s, id, closed))
    ensures RowsLive(FinishedEngine(s, id, closed).records, FinishedRowsOf(s, id, closed))
    ensures DistinctRows(FinishedRowsOf(s, id, closed))
  {
    var e, t := s.engine.value, FinishedEngine(s, id, closed);
    RecordedEngine(s, id, ReportOf(Concluded(closed)));
    SelfTopology(e.records);
    OthersLive(e.records, t.records, s.rows, id);
    WithoutRows(s.rows, id);
    if Concluded(closed).retained.Some? {
      FinishedRowLive(s, id, closed);
      RowsReplaced(s.rows, id, Concluded(closed).retained.value, t.records);
    } else {
      assert FinishedRowsOf(s, id, closed) == Without(s.rows, id);
    }
  }

  lemma SiblingUnsettled(a: seq<Record>, b: seq<Record>, id: string, other: string)
    requires SameTopology(a, b) && Unsettled(a, other) && other != id
    requires forall i :: 0 <= i < |a| && a[i].id != id ==> b[i] == a[i]
    ensures Unsettled(b, other)
  {
    UnsettledKept(a, b, other);
  }

  lemma FinishedRoles(s: Runtime, id: string, closed: Role)
    requires s.engine.Some? && Inv(s.engine.value) && RolesOk(s)
    ensures RolesOk(FinishRole(s, id, closed))
  {
    var e, t := s.engine.value, FinishRole(s, id, closed);
    RecordedEngine(s, id, ReportOf(Concluded(closed)));
    SelfTopology(e.records);
    forall other | other in t.roles && t.roles[other].stage != Finished
      ensures Unsettled(t.engine.value.records, other) && RoleOk(t.roles[other], t.aborted)
    {
      assert other != id && t.roles[other] == s.roles[other] && Unsettled(e.records, other);
      SiblingUnsettled(e.records, t.engine.value.records, id, other);
    }
  }

  lemma FinishKeeps(s: Runtime, id: string, closed: Role)
    requires Consistent(s) && s.engine.Some? && id in s.roles && s.roles[id].stage != Finished
    requires closed.stage == Closing && RoleOk(closed, s.aborted)
    ensures Consistent(FinishRole(s, id, closed))
  {
    FinishedRows(s, id, closed);
    FinishedRoles(s, id, closed);
    FinishKeepsBusy(s, id, FinishRole(s, id, closed));
  }

  lemma FinishKeepsBusy(s: Runtime, id: string, t: Runtime)
    requires InFlight(s) ==> s.phaseBusy
    requires t.phaseBusy == s.phaseBusy && id in t.roles && t.roles[id].stage == Finished
    requires t.roles.Keys == s.roles.Keys + {id} && forall k :: k in s.roles && k != id ==> t.roles[k] == s.roles[k]
    ensures InFlight(t) ==> t.phaseBusy
  {
  }

  /** Changing one role's locals. */
  lemma RoleChanged(s: Runtime, id: string, role: Role, aborted: bool, rows: seq<Row>)
    requires Consistent(s) && id in s.roles && (s.aborted ==> aborted)
    requires s.roles[id].stage != Finished || role.stage == Finished
    requires role.stage != Finished ==> RoleOk(role, aborted)
    requires rows == s.rows || rows == Without(s.rows, id)
    ensures Consistent(s.(roles := s.roles[id := role], aborted := aborted, rows := rows))
  {
    WithoutRows(s.rows, id);
    if s.engine.Some? {
      WithoutLive(s.engine.value.records, s.rows, id);
    }
    var t := s.(roles := s.roles[id := role], aborted := aborted, rows := rows);
    forall other | other in t.roles && t.roles[other].stage != Finished
      ensures t.engine.Some? && Unsettled(t.engine.value.records, other) && RoleOk(t.roles[other], t.aborted)
    {
      assert other in s.roles && s.roles[other].stage != Finished;
    }
  }

  // ---- Engine events with no role in flight ----

  lemma EngineReplaced(s: Runtime, engine: EngineState, roles: map<string, Role>, phaseBusy: bool, aborted: bool)
    requires Consistent(s) && s.engine.Some? && Inv(engine)
    requires RowsLive(engine.records, s.rows)
    requires forall id :: id in roles ==> roles[id].stage == Finished
    ensures Consistent(s.(engine := Some(engine), roles := roles, phaseBusy := phaseBusy, aborted := aborted))
  {
  }

  lemma AllCompletedQuiet(rs: seq<Record>, lo: nat, hi: nat)
    requires Frontier(rs, lo, hi) && Members(rs, lo, hi, {Completed})
    ensures NoneLive(rs)
  {
  }

  lemma SettleLive(s: EngineState, rows: seq<Row>)
    requires Inv(s) && HasControlData(s.records) && SettleBatch(s).Success? && RowsLive(s.records, rows)
    ensures Inv(SettleBatch(s).value) && RowsLive(SettleBatch(s).value.records, rows)
  {
    SettleKeeps(s);
    var lo, hi := Located(s);
    if Members(s.records, lo, hi, {Completed}) {
      AllCompletedQuiet(s.records, lo, hi);
      NoRows(s.records, rows);
    } else {
      SettlePaused(s, lo, hi);
    }
  }

  lemma RerunLive(s: EngineState, status: RecordStatus, forget: bool)
    requires forall i :: 0 <= i < |s.records| && s.records[i].status == status ==> s.records[i].kind == Agent
    requires SameTopology(s.records, Rerun(s.records, status, forget))
    ensures KeepsLive(s.records, Rerun(s.records, status, forget))
  {
  }

  /** A successful continuation is a rerun of agents only. */
  lemma RerunAgents(s: EngineState, status: RecordStatus, forget: bool)
    requires Inv(s) && Continues(s, status, forget) && Restarted(s, status, forget).Success?
    ensures KeepsLive(s.records, Restarted(s, status, forget).value.records)
  {
    CompiledIsStructured(s);
    var lo, hi := Located(s);
    RestartedKeeps(s, status, forget);
    RerunMembers(s, lo, hi, status, forget);
    RerunLive(s, status, forget);
  }

  lemma ResumeLive(s: EngineState, rows: seq<Row>)
    requires Inv(s) && ResumeWorkflow(s).Success? && RowsLive(s.records, rows)
    requires s.status in {StateBlocked, StateInterrupted, StateWaiting}
    ensures Inv(ResumeWorkflow(s).value) && RowsLive(ResumeWorkflow(s).value.records, rows)
  {
    var status := match s.status case StateBlocked => Blocked case StateInterrupted => Interrupted case _ => Waiting;
    ParseAccepts(s);
    RestartedKeeps(s, status, status != Interrupted);
    RerunAgents(s, status, status != Interrupted);
    RowsLiveKept(s.records, ResumeWorkflow(s).value.records, rows);
  }

  lemma AnswerLive(s: EngineState, answer: string, rows: seq<Row>)
    requires Inv(s) && HasControlData(s.records) && AnswerCheckpoint(s, answer).Success? && RowsLive(s.records, rows)
    ensures Inv(AnswerCheckpoint(s, answer).value) && RowsLive(AnswerCheckpoint(s, answer).value.records, rows)
  {
    AnswerKeeps(s, answer);
    QuietEngine(s);
    NoRows(s.records, rows);
  }

  lemma BeginLive(s: EngineState, rows: seq<Row>)
    requires Inv(s) && BeginBatch(s).Success? && RowsLive(s.records, rows)
    ensures Inv(BeginBatch(s).value) && RowsLive(BeginBatch(s).value.records, rows)
  {
    BeginKeeps(s);
    QuietEngine(s);
    NoRows(s.records, rows);
  }

  lemma InterruptLiveRows(s: EngineState, rows: seq<Row>)
    requires Inv(s) && RowsLive(s.records, rows)
    ensures Inv(InterruptEngine(s, WasInterrupted)) && RowsLive(InterruptEngine(s, WasInterrupted).records, rows)
  {
    InterruptKeeps(s, WasInterrupted);
    InterruptLive(s.records);
    RowsLiveKept(s.records, InterruptRecords(s.records), rows);
  }

  lemma ContinueKeeps(s: Runtime, instructions: string)
    requires Consistent(s) && s.engine.Some? && HasControlData(s.engine.value.records) && !InFlight(s)
    ensures Consistent(ContinuePhase(s, instructions))
  {
    var e := s.engine.value;
    if CanResume(s.engine, s.rows) && ResumeWorkflow(e).Success? {
      ResumeLive(e, s.rows);
    } else if e.status == StateWaiting && AnswerCheckpoint(e, instructions).Success? {
      AnswerLive(e, instructions, s.rows);
    }
  }

  lemma LaunchedRunning(rs: seq<Record>, id: string)
    requires AllLocal(rs) && id in LaunchedRoles(rs)
    ensures Unsettled(rs, id) && RoleOk(LaunchedRoles(rs)[id], false) && RoleOk(LaunchedRoles(rs)[id], true)
  {
    var i :| 0 <= i < |rs| && rs[i].status == Running && rs[i].id == id;
    assert LocalOk(rs[i]);
  }

  lemma LaunchKeeps(s: Runtime)
    requires Consistent(s) && s.engine.Some? && s.engine.value.status == StateRunning && s.phaseBusy
    ensures Consistent(s.(roles := LaunchedRoles(s.engine.value.records)))
  {
    var e := s.engine.value;
    forall id | id in LaunchedRoles(e.records)
      ensures Unsettled(e.records, id) && RoleOk(LaunchedRoles(e.records)[id], s.aborted)
    {
      LaunchedRunning(e.records, id);
    }
  }

  lemma InterruptInFlight(s: Runtime)
    requires Consistent(s) && s.engine.Some?
    ensures Consistent(s.(engine := Some(InterruptEngine(s.engine.value, WasInterrupted))))
  {
    var e := s.engine.value;
    var t := s.(engine := Some(InterruptEngine(e, WasInterrupted)));
    InterruptLiveRows(e, s.rows);
    InterruptLive(e.records);
    forall id | id in t.roles && t.roles[id].stage != Finished
      ensures Unsettled(t.engine.value.records, id) && RoleOk(t.roles[id], t.aborted)
    {
      assert Unsettled(e.records, id);
      UnsettledKept(e.records, t.engine.value.records, id);
    }
  }

  lemma StartKeeps(s: Runtime, workflow: Workflow, command: string, mode: Option<Mode>)
    requires CreateEngine(workflow, command, mode).Success?
    ensures Consistent(Archive(s).(engine := Some(CreateEngine(workflow, command, mode).value),
                                   phaseBusy := true, aborted := false))
  {
    CreateKeeps(workflow, command, mode);
  }

  lemma RestoreLive(engine: EngineState, rows: seq<Row>)
    requires Inv(engine) && RowsLive(engine.records, rows)
    ensures RestoreEngine(engine).Success?
    ensures Inv(RestoreEngine(engine).value) && RowsLive(RestoreEngine(engine).value.records, rows)
  {
    RestoreExact(engine);
    if engine.status == StateRunning {
      InterruptLiveRows(engine, rows);
    }
  }

  /** Reloading a snapshot always succeeds and keeps every conversation. */
  lemma ReloadKeeps(s: Runtime)
    requires Consistent(s)
    ensures Consistent(Reloaded(s)) && Reloaded(s).rows == s.rows
    ensures s.engine.Some? ==>
              RestoreEngine(s.engine.value).Success? && Reloaded(s).engine == Some(RestoreEngine(s.engine.value).value)
  {
    SnapshotRestores(s);
    if s.engine.Some? {
      RestoreLive(s.engine.value, s.rows);
    }
  }

  // ---- One role's events ----

  lemma SetupFailsKeeps(s: Runtime, id: string, hasChild: bool)
    requires Consistent(s) && AtStage(s, id, Setup)
    ensures Consistent(SetupFailed(s, id, hasChild))
  {
    var closed := CloseAttempt(ThrownRole(s.roles[id], false), None);
    if hasChild {
      RoleChanged(s, id, closed, s.aborted, s.rows);
    } else {
      FinishKeeps(s, id, closed);
    }
  }

  lemma StartsKeeps(s: Runtime, id: string)
    requires Consistent(s) && AtStage(s, id, Setup) && !s.aborted
    ensures Consistent(PromptStarted(s, id))
  {
    RoleChanged(s, id, s.roles[id].(stage := Prompting), s.aborted, Without(s.rows, id));
  }

  lemma ReturnedOk(role: Role, reason: StopReason, aborted: bool, later: bool, snapshot: Option<string>)
    requires RoleOk(role, aborted) && role.stage == Prompting && (aborted ==> later)
    ensures RoleOk(CloseAttempt(ReturnedRole(role, reason, aborted), snapshot), later)
    ensures CloseAttempt(ReturnedRole(role, reason, aborted), snapshot).stage == Closing
  {
  }

  lemma ReturnKeeps(s: Runtime, id: string, reason: StopReason, signalled: bool, snapshot: Option<string>)
    requires Consistent(s) && AtStage(s, id, Prompting)
    ensures Consistent(PromptReturned(s, id, reason, signalled, snapshot))
  {
    var aborted := s.aborted || (reason == PromptCancelled && signalled);
    ReturnedOk(s.roles[id], reason, s.aborted, aborted, snapshot);
    RoleChanged(s, id, CloseAttempt(ReturnedRole(s.roles[id], reason, s.aborted), snapshot), aborted, s.rows);
  }

  lemma ThrownOk(role: Role, contextLimit: bool, snapshot: Option<string>, aborted: bool)
    requires RoleOk(role, aborted) && role.stage == Prompting
    ensures RoleOk(CloseAttempt(ThrownRole(role, contextLimit), snapshot), aborted)
    ensures CloseAttempt(ThrownRole(role, contextLimit), snapshot).stage == Closing
  {
  }

  lemma ThrowKeeps(s: Runtime, id: string, contextLimit: bool, snapshot: Option<string>)
    requires Consistent(s) && AtStage(s, id, Prompting)
    ensures Consistent(PromptThrown(s, id, contextLimit, snapshot))
  {
    ThrownOk(s.roles[id], contextLimit, snapshot, s.aborted);
    RoleChanged(s, id, CloseAttempt(ThrownRole(s.roles[id], contextLimit), snapshot), s.aborted, s.rows);
  }

  lemma ReportedOk(role: Role, raw: RawOutcome, aborted: bool)
    requires role.stage != Finished ==> RoleOk(role, aborted)
    ensures var r := WorkflowRuntime.Report(role, raw, aborted);
            r.stage == role.stage && (r.stage != Finished ==> RoleOk(r, aborted))
  {
    if raw.RawOutcome? {
      TrimIdempotent(raw.summary);
    }
  }

  lemma ReportKeeps(s: Runtime, id: string, raw: RawOutcome)
    requires Consistent(s) && id in s.roles
    ensures Consistent(ReportArrived(s, id, raw))
  {
    ReportedOk(s.roles[id], raw, s.aborted);
    RoleChanged(s, id, WorkflowRuntime.Report(s.roles[id], raw, s.aborted), s.aborted, s.rows);
  }

  lemma ReportFailsKeeps(s: Runtime, id: string)
    requires Consistent(s) && id in s.roles
    ensures Consistent(ReportToolFailed(s, id))
  {
    RoleChanged(s, id, Fail(s.roles[id], "Report tool failed"), s.aborted, s.rows);
  }

  lemma DisposedKeeps(s: Runtime, id: string, clean: bool)
    requires Consistent(s) && AtStage(s, id, Closing)
    ensures Consistent(ChildGone(s, id, clean))
  {
    FinishKeeps(s, id, DisposedRole(s.roles[id], clean));
  }

  lemma ReportEventKeeps(s: Runtime, e: Event)
    requires Consistent(s) && (e.ReportArrives? || e.ReportToolFails?)
    ensures Consistent(NextRole(s, e))
  {
    if e.id in s.roles {
      if e.ReportArrives? {
        ReportKeeps(s, e.id, e.raw);
      } else {
        ReportFailsKeeps(s, e.id);
      }
    }
  }

  lemma PromptEventKeeps(s: Runtime, e: Event)
    requires Consistent(s) && (e.PromptReturns? || e.PromptThrows?)
    ensures Consistent(NextRole(s, e))
  {
    if AtStage(s, e.id, Prompting) {
      if e.PromptReturns? {
        ReturnKeeps(s, e.id, e.reason, e.signalled, e.snapshot);
      } else {
        ThrowKeeps(s, e.id, e.contextLimit, e.snapshot);
      }
    }
  }

  lemma SetupEventKeeps(s: Runtime, e: Event)
    requires Consistent(s) && (e.SetupFails? || e.PromptStarts?)
    ensures Consistent(NextRole(s, e))
  {
    if AtStage(s, e.id, Setup) {
      if e.SetupFails? {
        SetupFailsKeeps(s, e.id, e.hasChild);
      } else if !s.aborted {
        StartsKeeps(s, e.id);
      }
    }
  }

  lemma DisposedEventKeeps(s: Runtime, e: Event)
    requires Consistent(s) && e.ChildDisposed?
    ensures Consistent(NextRole(s, e))
  {
    var t := ChildGone(s, e.id, e.clean);
    assert NextRole(s, e) == t;
    if AtStage(s, e.id, Closing) {
      DisposedKeeps(s, e.id, e.clean);
    } else {
      assert t == s;
    }
  }

  // ---- The drive loop's events ----

  lemma BatchSettledKeeps(s: Runtime)
    requires Consistent(s) && CanStep(s) && s.engine.Some? && !InFlight(s)
    ensures Consistent(SetEngine(s, SettleBatch(s.engine.value)))
  {
    var e := s.engine.value;
    if SettleBatch(e).Success? {
      SettleLive(e, s.rows);
      EngineReplaced(s, SettleBatch(e).value, s.roles, s.phaseBusy, s.aborted);
    }
  }

  lemma RecoveryKeeps(s: Runtime)
    requires Consistent(s) && CanStep(s) && s.engine.Some? && !InFlight(s)
    ensures Consistent(SetEngine(s, SettleOrInterrupt(s.engine.value)).(phaseBusy := false))
  {
    BatchSettledKeeps(s);
    InterruptInFlight(s);
  }

  lemma BatchBegunKeeps(s: Runtime)
    requires Consistent(s)
    ensures Consistent(BatchBegun(s))
  {
    if s.engine.Some? && !InFlight(s) && BeginBatch(s.engine.value).Success? {
      BeginLive(s.engine.value, s.rows);
    }
  }

  lemma LaunchedKeeps(s: Runtime)
    requires Consistent(s)
    ensures Consistent(RolesLaunched(s))
  {
    if s.phaseBusy && s.engine.Some? && s.engine.value.status == StateRunning {
      LaunchKeeps(s);
    }
  }

  lemma DriveReturnedKeeps(s: Runtime)
    requires Consistent(s)
    ensures Consistent(DriveReturned(s))
  {
  }

  lemma SettledOrFailedKeeps(s: Runtime)
    requires Consistent(s) && CanStep(s)
    ensures Consistent(BatchSettled(s)) && Consistent(DriveFailed(s))
  {
    if s.engine.Some? && !InFlight(s) {
      BatchSettledKeeps(s);
      RecoveryKeeps(s);
    }
  }

  lemma DriveEventKeeps(s: Runtime, e: Event)
    requires Consistent(s) && CanStep(s)
    requires e.BeginDeclaredBatch? || e.LaunchRoles? || e.SettleDeclaredBatch? || e.DriveReturns? || e.DriveFails?
    ensures Consistent(NextDrive(s, e))
  {
    BatchBegunKeeps(s);
    LaunchedKeeps(s);
    DriveReturnedKeeps(s);
    SettledOrFailedKeeps(s);
  }

  lemma StartedKeeps(s: Runtime, workflow: Workflow, command: string, mode: Option<Mode>)
    requires Consistent(s)
    ensures Consistent(PhaseStarted(s, workflow, command, mode))
  {
    if CreateEngine(workflow, command, mode).Success? {
      StartKeeps(s, workflow, command, mode);
    }
  }

  lemma ContinuedKeeps(s: Runtime, instructions: string)
    requires Consistent(s) && CanStep(s)
    ensures Consistent(Continued(s, instructions))
  {
    if !s.phaseBusy && Active(s) {
      ContinueKeeps(s, instructions);
    }
  }

  lemma ErredKeeps(s: Runtime)
    requires Consistent(s)
    ensures Consistent(PromptErred(s))
  {
    if s.engine.Some? {
      InterruptInFlight(s);
    }
  }

  /** Archiving on a new routed prompt never drops a role in flight, even while its phase action is still busy. */
  lemma RoutedDropsNoRole(s: Runtime)
    requires Consistent(s) && !Active(s)
    ensures !InFlight(s)
  {
    if s.engine.Some? {
      forall id ensures !Unsettled(s.engine.value.records, id) {
        CompletedSettled(s.engine.value, id);
      }
    }
  }

  lemma CompletedSettled(e: EngineState, id: string)
    requires Inv(e) && e.status == StateCompleted
    ensures !Unsettled(e.records, id)
  {
    var lo, hi := Located(e);
    forall k | 0 <= k < |e.records| ensures e.records[k].status !in {Running, Interrupted} {
      assert Done(e.records[k]);
    }
  }

  lemma AbortedKeeps(s: Runtime)
    requires Consistent(s)
    ensures Consistent(s.(aborted := true)) && Consistent(Abandoned(s)) && Consistent(Routed(s))
  {
  }

  lemma PhaseEventKeeps(s: Runtime, e: Event)
    requires Consistent(s) && CanStep(s) && (e.StartPhase? || e.Abandon? || e.Routes? || e.Continue?)
    ensures Consistent(Next(s, e))
  {
    match e
    case StartPhase(workflow, command, mode) => StartedKeeps(s, workflow, command, mode);
    case Continue(instructions) => ContinuedKeeps(s, instructions);
    case _ => AbortedKeeps(s);
  }

  lemma OutsideEventIs(s: Runtime, e: Event)
    requires CanStep(s) && (e.AbortFires? || e.PromptErrors? || e.Reload?)
    ensures Next(s, e)
         == if e.AbortFires? then s.(aborted := true) else if e.PromptErrors? then PromptErred(s) else Reloaded(s)
  {
  }

  lemma OutsideEventKeeps(s: Runtime, e: Event)
    requires Consistent(s) && CanStep(s) && (e.AbortFires? || e.PromptErrors? || e.Reload?)
    ensures Consistent(Next(s, e))
  {
    OutsideEventIs(s, e);
    if e.AbortFires? {
      AbortedKeeps(s);
    } else if e.PromptErrors? {
      ErredKeeps(s);
    } else {
      ReloadKeeps(s);
    }
  }

  lemma RoleOrDriveIs(s: Runtime, e: Event)
    requires CanStep(s)
    requires !(e.StartPhase? || e.Abandon? || e.Routes? || e.Continue?)
    requires !(e.AbortFires? || e.PromptErrors? || e.Reload?)
    ensures Next(s, e)
         == if e.BeginDeclaredBatch? || e.LaunchRoles? || e.SettleDeclaredBatch? || e.DriveReturns? || e.DriveFails?
            then NextDrive(s, e) else NextRole(s, e)
  {
  }

  /** One stretch of code between two awaits keeps engine and conversations consistent. */
  lemma NextKeeps(s: Runtime, e: Event)
    requires Consistent(s) && CanStep(s)
    ensures Consistent(Next(s, e))
  {
    if e.StartPhase? || e.Abandon? || e.Routes? || e.Continue? {
      PhaseEventKeeps(s, e);
    } else if e.AbortFires? || e.PromptErrors? || e.Reload? {
      OutsideEventKeeps(s, e);
    } else {
      RoleOrDriveIs(s, e);
      if e.BeginDeclaredBatch? || e.LaunchRoles? || e.SettleDeclaredBatch? || e.DriveReturns? || e.DriveFails? {
        DriveEventKeeps(s, e);
      } else if e.ReportArrives? || e.ReportToolFails? {
        ReportEventKeeps(s, e);
      } else if e.PromptReturns? || e.PromptThrows? {
        PromptEventKeeps(s, e);
      } else if e.ChildDisposed? {
        DisposedEventKeeps(s, e);
      } else {
        SetupEventKeeps(s, e);
      }
    }
  }

  // ---- Whole runs ----

  const Idle := Runtime(None, [], map[], false, false)

  lemma ConsistentControl(s: Runtime)
    requires Consistent(s)
    ensures CanStep(s)
  {
    if s.engine.Some? {
      CompiledIsStructured(s.engine.value);
    }
  }

  function RunAll(s: Runtime, events: seq<Event>): Runtime
    decreases |events|
  {
    if events == [] then s else RunAll(if CanStep(s) then Next(s, events[0]) else s, events[1..])
  }

  lemma {:induction false} RunAllKeeps(s: Runtime, events: seq<Event>)
    requires Consistent(s)
    ensures Consistent(RunAll(s, events))
    decreases |events|
  {
    if events != [] {
      ConsistentControl(s);
      NextKeeps(s, events[0]);
      RunAllKeeps(Next(s, events[0]), events[1..]);
    }
  }

  /**
   * At every await point of every orchestrated run, whatever the interleaving of siblings and whichever way each
   * role ends, the retained conversations have unique ids and validate against the engine as it would be restored.
   */
  lemma EveryAwaitPoint(events: seq<Event>)
    ensures var s := RunAll(Idle, events);
            && DistinctRows(s.rows)
            && (s.engine.None? ==> ValidContinuations(None, s.rows, true))
            && (s.engine.Some? ==>
                  && RestoreEngine(s.engine.value).Success?
                  && ValidContinuations(Some(RestoreEngine(s.engine.value).value), s.rows, true))
  {
    RunAllKeeps(Idle, events);
    SnapshotRestores(RunAll(Idle, events));
  }
}
