/**
 * The stateful shell over the engine in an orchestrated session: phase actions, parallel roles, and the retained
 * conversations. Each event is one stretch of code between two awaits, so siblings interleave freely.
 */
module WorkflowRuntime {
  import opened Wrappers
  import opened Text
  import opened Workflows
  import opened Records
  import opened Engine
  import opened Continuations

  datatype ResourceStop = ContextLimit | TokenLimit | RequestLimit

  datatype StopReason = PromptCompleted | PromptTokenLimit | PromptRequestLimit | PromptRefused | PromptCancelled

  datatype Stage = Setup | Prompting | Closing | Finished

  /** The local variables of one runRole call; reports are accepted exactly while prompting. */
  datatype Role = Role(
    stage: Stage, preservesStop: bool, outcome: Option<Outcome>, error: Option<string>,
    completedBeforeCancellation: bool, resourceStop: Option<ResourceStop>, retained: Option<string>)

  datatype Runtime = Runtime(
    engine: Option<EngineState>, rows: seq<Row>, roles: map<string, Role>, phaseBusy: bool, aborted: bool)

  datatype Event =
    // phase actions
    | StartPhase(workflow: Workflow, command: string, mode: Option<Mode>)
    | Abandon
    | Routes
    | Continue(instructions: string)
    // the drive loop
    | BeginDeclaredBatch
    | LaunchRoles
    | SettleDeclaredBatch
    | DriveReturns
    | DriveFails
    // one role
    | SetupFails(id: string, hasChild: bool)
    | PromptStarts(id: string)
    | ReportArrives(id: string, raw: RawOutcome)
    | ReportToolFails(id: string)
    | PromptReturns(id: string, reason: StopReason, signalled: bool, snapshot: Option<string>)
    | PromptThrows(id: string, contextLimit: bool, snapshot: Option<string>)
    | ChildDisposed(id: string, clean: bool)
    // the environment
    | AbortFires
    | PromptErrors
    | Reload

  const DocumentRoles: set<string> :=
    {"aggregator", "researcher", "designer", "planner", "schemer", "summarizer", "archivist"}

  function NewRole(role: Option<string>): Role {
    Role(Setup, !(role.Some? && role.value in DocumentRoles), None, None, false, None, None)
  }

  /** `result.error ??= message` */
  function Fail(role: Role, message: string): Role {
    if role.error.Some? then role else role.(error := Some(message))
  }

  function Without(rows: seq<Row>, id: string): seq<Row> {
    if rows == [] then []
    else
      (if rows[0].recordId == id then [] else [rows[0]]) + Without(rows[1..], id)
  }

  predicate InFlight(s: Runtime) {
    exists id :: id in s.roles && s.roles[id].stage != Finished
  }

  predicate Active(s: Runtime) {
    s.engine.Some? && s.engine.value.status != StateCompleted
  }

  // ---- runRole ----

  function Report(role: Role, raw: RawOutcome, aborted: bool): Role {
    if role.stage != Prompting || aborted then Fail(role, "Report outside the active role turn")
    else if role.outcome.Some? || ParseOutcome(raw).None? then Fail(role, "Invalid or duplicate report")
    else role.(outcome := ParseOutcome(raw))
  }

  /** The finally block up to disposing the child: decide whether this attempt is retained. */
  function CloseAttempt(role: Role, snapshot: Option<string>): Role {
    var retain :=
      role.stage == Prompting
      && (!role.completedBeforeCancellation || Truthy(role.error)
          || role.outcome.None? || role.outcome.value.status != OutcomeCompleted);
    role.(stage := Closing, retained := if retain then snapshot else None)
  }

  function ReturnedRole(role: Role, reason: StopReason, aborted: bool): Role {
    var r := role.(completedBeforeCancellation := reason == PromptCompleted && !aborted);
    if r.preservesStop && !Truthy(r.error) && (reason == PromptTokenLimit || reason == PromptRequestLimit) then
      r.(resourceStop := Some(if reason == PromptTokenLimit then TokenLimit else RequestLimit))
    else if reason != PromptCompleted then Fail(r, "Role stopped; completion was not established")
    else r
  }

  function ThrownRole(role: Role, contextLimit: bool): Role {
    if role.stage == Prompting && role.preservesStop && !Truthy(role.error) && contextLimit
    then role.(resourceStop := Some(ContextLimit))
    else Fail(role, "Role setup or execution failed")
  }

  function DisposedRole(role: Role, clean: bool): Role {
    if clean then role else Fail(role.(retained := None), "Role cleanup failed")
  }

  const ResourceSummary := "Resource limit"

  /** A resource stop becomes a question when its conversation was kept, and an error otherwise. */
  function Concluded(role: Role): Role {
    if role.resourceStop.None? then role
    else if role.retained.Some? && !Truthy(role.error) then
      role.(outcome := Some(Outcome(NeedsHuman, ResourceSummary, None, None)))
    else Fail(role.(retained := None), "Continuation could not be saved")
  }

  function RawOf(outcome: Option<Outcome>): RawOutcome {
    if outcome.None? then Malformed
    else RawOutcome(outcome.value.status, outcome.value.summary, outcome.value.review, outcome.value.allDone)
  }

  function ReportOf(role: Role): Engine.Report {
    Engine.Report(RawOf(role.outcome), role.error)
  }

  /** The outcome reaches the engine unless the turn was cancelled first, or the engine refuses it. */
  predicate Recorded(s: Runtime, id: string, closed: Role)
    requires s.engine.Some?
  {
    && (!s.aborted || closed.completedBeforeCancellation)
    && RecordOutcome(s.engine.value, id, ReportOf(Concluded(closed))).Success?
  }

  function FinishedEngine(s: Runtime, id: string, closed: Role): EngineState
    requires s.engine.Some?
  {
    if Recorded(s, id, closed) then RecordOutcome(s.engine.value, id, ReportOf(Concluded(closed))).value
    else s.engine.value
  }

  function FinishedRowsOf(s: Runtime, id: string, closed: Role): seq<Row> {
    var retained := Concluded(closed).retained;
    Without(s.rows, id) + if retained.Some? then [Row(id, retained.value)] else []
  }

  /** The tail of runRole: replace this role's row, then record the outcome unless cancelled. */
  function FinishRole(s: Runtime, id: string, closed: Role): Runtime
    requires s.engine.Some?
  {
    s.(engine := Some(FinishedEngine(s, id, closed)), rows := FinishedRowsOf(s, id, closed),
       roles := s.roles[id := Concluded(closed).(stage := Finished)])
  }

  // ---- One event ----

  predicate AtStage(s: Runtime, id: string, stage: Stage) {
    s.engine.Some? && id in s.roles && s.roles[id].stage == stage
  }

  function SetEngine(s: Runtime, r: Result<EngineState, EngineError>): Runtime {
    if r.Success? then s.(engine := Some(r.value)) else s
  }

  function Archive(s: Runtime): Runtime {
    s.(engine := None, rows := [], roles := map[])
  }

  function ContinuePhase(s: Runtime, instructions: string): Runtime
    requires s.engine.Some? && HasControlData(s.engine.value.records)
  {
    var engine := s.engine.value;
    var busy := s.(phaseBusy := true, aborted := false, roles := map[]);
    if CanResume(s.engine, s.rows) then
      if ResumeWorkflow(engine).Success? then SetEngine(busy, ResumeWorkflow(engine)) else s
    else if engine.status == StateWaiting then
      if AnswerCheckpoint(engine, instructions).Success? then SetEngine(busy, AnswerCheckpoint(engine, instructions))
      else s
    else if engine.status == StateReady then busy
    else s
  }

  /** Every running record of the batch gets its own call. */
  function LaunchedRoles(rs: seq<Record>): map<string, Role> {
    map id | id in (set i | 0 <= i < |rs| && rs[i].status == Running :: rs[i].id)
      :: NewRole(if FindId(rs, id) < |rs| then rs[FindId(rs, id)].role else None)
  }

  function SettleOrInterrupt(engine: EngineState): Result<EngineState, EngineError>
    requires HasControlData(engine.records)
  {
    if exists i :: 0 <= i < |engine.records| && engine.records[i].status == Running
    then Success(InterruptEngine(engine, WasInterrupted)) else SettleBatch(engine)
  }

  predicate CanStep(s: Runtime) {
    s.engine.Some? ==> HasControlData(s.engine.value.records)
  }

  // phase actions

  function PhaseStarted(s: Runtime, workflow: Workflow, command: string, mode: Option<Mode>): Runtime {
    var started := CreateEngine(workflow, command, mode);
    if s.phaseBusy || Active(s) || started.Failure? then s
    else Archive(s).(engine := Some(started.value), phaseBusy := true, aborted := false)
  }

  function Abandoned(s: Runtime): Runtime {
    if s.phaseBusy || !Active(s) then s else Archive(s)
  }

  /**
   * A new routed prompt archives a workflow that is no longer active, with its conversations, also while the phase
   * action that completed it has yet to return.
   */
  function Routed(s: Runtime): Runtime {
    if Active(s) then s else Archive(s)
  }

  function Continued(s: Runtime, instructions: string): Runtime
    requires CanStep(s)
  {
    if s.phaseBusy || !Active(s) then s else ContinuePhase(s, instructions)
  }

  // the drive loop

  function BatchBegun(s: Runtime): Runtime {
    if !s.phaseBusy || s.engine.None? || s.aborted || InFlight(s) then s
    else SetEngine(s, BeginBatch(s.engine.value)).(roles := map[])
  }

  function RolesLaunched(s: Runtime): Runtime {
    if !s.phaseBusy || s.engine.None? || s.engine.value.status != StateRunning || InFlight(s) then s
    else s.(roles := LaunchedRoles(s.engine.value.records))
  }

  function BatchSettled(s: Runtime): Runtime
    requires CanStep(s)
  {
    if !s.phaseBusy || s.engine.None? || s.aborted || InFlight(s) then s
    else SetEngine(s, SettleBatch(s.engine.value))
  }

  function DriveReturned(s: Runtime): Runtime {
    if InFlight(s) || (s.engine.Some? && s.engine.value.status in {StateReady, StateRunning}) then s
    else s.(phaseBusy := false)
  }

  function DriveFailed(s: Runtime): Runtime
    requires CanStep(s)
  {
    if InFlight(s) then s
    else if s.engine.Some? && s.engine.value.status == StateRunning then
      SetEngine(s, SettleOrInterrupt(s.engine.value)).(phaseBusy := false)
    else s.(phaseBusy := false)
  }

  // one role

  function SetRole(s: Runtime, id: string, role: Role): Runtime {
    s.(roles := s.roles[id := role])
  }

  function SetupFailed(s: Runtime, id: string, hasChild: bool): Runtime {
    if !AtStage(s, id, Setup) then s
    else
      var closed := CloseAttempt(ThrownRole(s.roles[id], false), None);
      if hasChild then SetRole(s, id, closed) else FinishRole(s, id, closed)
  }

  function PromptStarted(s: Runtime, id: string): Runtime {
    if !AtStage(s, id, Setup) || s.aborted then s
    else SetRole(s, id, s.roles[id].(stage := Prompting)).(rows := Without(s.rows, id))
  }

  function ReportArrived(s: Runtime, id: string, raw: RawOutcome): Runtime {
    if id !in s.roles then s else SetRole(s, id, Report(s.roles[id], raw, s.aborted))
  }

  function ReportToolFailed(s: Runtime, id: string): Runtime {
    if id !in s.roles then s else SetRole(s, id, Fail(s.roles[id], "Report tool failed"))
  }

  function PromptReturned(
    s: Runtime, id: string, reason: StopReason, signalled: bool, snapshot: Option<string>): Runtime
  {
    if !AtStage(s, id, Prompting) then s
    else SetRole(s, id, CloseAttempt(ReturnedRole(s.roles[id], reason, s.aborted), snapshot))
         .(aborted := s.aborted || (reason == PromptCancelled && signalled))
  }

  function PromptThrown(s: Runtime, id: string, contextLimit: bool, snapshot: Option<string>): Runtime {
    if !AtStage(s, id, Prompting) then s
    else SetRole(s, id, CloseAttempt(ThrownRole(s.roles[id], contextLimit), snapshot))
  }

  function ChildGone(s: Runtime, id: string, clean: bool): Runtime {
    if !AtStage(s, id, Closing) then s else FinishRole(s, id, DisposedRole(s.roles[id], clean))
  }

  // the environment

  function PromptErred(s: Runtime): Runtime {
    if s.engine.Some? && s.engine.value.status == StateRunning
    then s.(engine := Some(InterruptEngine(s.engine.value, WasInterrupted))) else s
  }

  function Reloaded(s: Runtime): Runtime {
    if s.engine.None? then Runtime(None, s.rows, map[], false, false)
    else
      var restored := RestoreEngine(s.engine.value);
      if restored.Success? && ValidContinuations(Some(restored.value), s.rows, true)
      then Runtime(Some(restored.value), s.rows, map[], false, false) else s
  }

  function NextRole(s: Runtime, e: Event): Runtime {
    match e
    case SetupFails(id, hasChild) => SetupFailed(s, id, hasChild)
    case PromptStarts(id) => PromptStarted(s, id)
    case ReportArrives(id, raw) => ReportArrived(s, id, raw)
    case ReportToolFails(id) => ReportToolFailed(s, id)
    case PromptReturns(id, reason, signalled, snapshot) => PromptReturned(s, id, reason, signalled, snapshot)
    case PromptThrows(id, contextLimit, snapshot) => PromptThrown(s, id, contextLimit, snapshot)
    case ChildDisposed(id, clean) => ChildGone(s, id, clean)
    case _ => s
  }

  function NextDrive(s: Runtime, e: Event): Runtime
    requires CanStep(s)
  {
    match e
    case BeginDeclaredBatch => BatchBegun(s)
    case LaunchRoles => RolesLaunched(s)
    case SettleDeclaredBatch => BatchSettled(s)
    case DriveReturns => DriveReturned(s)
    case DriveFails => DriveFailed(s)
    case _ => s
  }

  function Next(s: Runtime, e: Event): Runtime
    requires CanStep(s)
  {
    match e
    case StartPhase(workflow, command, mode) => PhaseStarted(s, workflow, command, mode)
    case Abandon => Abandoned(s)
    case Routes => Routed(s)
    case Continue(instructions) => Continued(s, instructions)
    case AbortFires => s.(aborted := true)
    case PromptErrors => PromptErred(s)
    case Reload => Reloaded(s)
    case _ => if e.BeginDeclaredBatch? || e.LaunchRoles? || e.SettleDeclaredBatch? || e.DriveReturns? || e.DriveFails?
              then NextDrive(s, e) else NextRole(s, e)
  }
}
