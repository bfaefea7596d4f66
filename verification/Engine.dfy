/** The workflow engine: pure transitions over a compiled record list. Message wording is abbreviated. */
module Engine {
  import opened Wrappers
  import opened Text
  import opened Workflows
  import opened Records
  import opened Compile

  datatype Mode = Semi | Auto

  datatype EngineStatus =
    StateReady | StateRunning | StateWaiting | StateBlocked | StateInterrupted | StateCompleted

  datatype PauseKind = ModePause | HumanPause | SemiPause | ReportPause | FailurePause | InterruptedPause

  datatype Pause = Pause(kind: PauseKind, message: string)

  datatype EngineState = EngineState(
    workflow: Workflow, command: string, mode: Option<Mode>, status: EngineStatus,
    pause: Option<Pause>, activeBatch: Option<string>, records: seq<Record>)

  datatype EngineError =
    | Uncompilable(reason: CompileError)
    | NotReady | ReplayOrBypass | NotInActiveBatch | NotSettled
    | NeedsDecision | EmptyAnswer | UnknownMode
    | InvalidCheckpoint
    | NotPausedHere | NothingToResume | BypassesWork | ReportRequired

  /** A report as it arrives at the agent boundary, before parsing. */
  datatype RawOutcome =
    | Malformed
    | RawOutcome(status: OutcomeStatus, summary: string, review: Option<Review>, allDone: Option<bool>)

  datatype Report = Report(outcome: RawOutcome, error: Option<string>)

  // ---- Small helpers ----

  /** Control records carry the data their interpretation dereferences. */
  predicate HasControlData(rs: seq<Record>) {
    forall i :: 0 <= i < |rs| ==>
      && (rs[i].kind == LoopEnd ==> rs[i].loops != [])
      && (rs[i].kind == Human ==> rs[i].prompt.Some?)
  }

  predicate SameTopology(a: seq<Record>, b: seq<Record>) {
    |a| == |b| && forall i :: 0 <= i < |a| ==> Topology(a[i]) == Topology(b[i])
  }

  /** A JavaScript string or undefined used as a condition. */
  predicate Truthy(s: Option<string>) {
    s.Some? && s.value != ""
  }

  function Summary(r: Record): string {
    if r.outcome.Some? then r.outcome.value.summary else ""
  }

  function InnermostLoop(r: Record): LoopScope
    requires r.loops != []
  {
    r.loops[|r.loops| - 1]
  }

  predicate InBatch(r: Record, batch: Option<string>) {
    batch == Some(r.batch)
  }

  function Paused(s: EngineState, kind: PauseKind, message: string): EngineState {
    s.(status := (match kind
                  case FailurePause => StateBlocked
                  case InterruptedPause => StateInterrupted
                  case _ => StateWaiting),
       pause := Some(Pause(kind, message)))
  }

  function WithStatus(rs: seq<Record>, k: nat, status: RecordStatus): seq<Record>
    requires k < |rs|
  {
    rs[k := rs[k].(status := status)]
  }

  // ---- advance: consume control records only ----

  datatype Halt = AtAgent(k: nat) | AtHuman(k: nat) | AtExhausted(k: nat) | AtEnd

  function Halting(rs: seq<Record>, i: nat): (h: Halt)
    requires i <= |rs| && HasControlData(rs)
    ensures !h.AtEnd? ==> i <= h.k < |rs| && rs[h.k].status == Pending
    ensures h.AtAgent? ==> rs[h.k].kind == Agent
    ensures h.AtHuman? ==> rs[h.k].kind == Human
    ensures h.AtExhausted? ==>
      rs[h.k].kind == LoopEnd && InnermostLoop(rs[h.k]).iteration == InnermostLoop(rs[h.k]).max
    ensures var stop := if h.AtEnd? then |rs| else h.k;
            forall j :: i <= j < stop && rs[j].status == Pending ==>
              rs[j].kind == LoopEnd && InnermostLoop(rs[j]).iteration != InnermostLoop(rs[j]).max
    decreases |rs| - i
  {
    if i == |rs| then AtEnd
    else if rs[i].status != Pending then Halting(rs, i + 1)
    else match rs[i].kind
         case Human => AtHuman(i)
         case Agent => AtAgent(i)
         case LoopEnd =>
           var loop := InnermostLoop(rs[i]);
           if loop.iteration == loop.max then AtExhausted(i) else Halting(rs, i + 1)
  }

  /** Complete the control records passed over before `k`. */
  function Passed(rs: seq<Record>, k: nat): (r: seq<Record>)
    requires k <= |rs|
  {
    seq(|rs|, i requires 0 <= i < |rs| =>
      if i < k && rs[i].status == Pending then rs[i].(status := Completed) else rs[i])
  }

  function ExhaustedMessage(loop: LoopScope): string {
    loop.id + " exhausted " + Decimal(loop.max)
  }

  function Advance(s: EngineState): EngineState
    requires HasControlData(s.records)
  {
    var rs := s.records;
    match Halting(rs, 0)
    case AtAgent(k) => s.(pause := None, status := StateReady, records := Passed(rs, k))
    case AtHuman(k) =>
      Paused(s.(records := WithStatus(Passed(rs, k), k, Waiting)), HumanPause, rs[k].prompt.value)
    case AtExhausted(k) =>
      Paused(s.(records := WithStatus(Passed(rs, k), k, Blocked)), FailurePause,
             ExhaustedMessage(InnermostLoop(rs[k])))
    case AtEnd => s.(pause := None, status := StateCompleted, records := Passed(rs, |rs|))
  }

  // ---- createEngine ----

  const ChooseMode := "Choose mode"

  lemma ShapedHasControlData(rs: seq<Record>)
    requires AllShaped(rs)
    ensures HasControlData(rs)
  {
    forall i | 0 <= i < |rs|
      ensures (rs[i].kind == LoopEnd ==> rs[i].loops != []) && (rs[i].kind == Human ==> rs[i].prompt.Some?)
    {
      assert WellShaped(rs[i]);
    }
  }

  function CreateEngine(workflow: Workflow, command: string, mode: Option<Mode>): Result<EngineState, EngineError> {
    var compiled := CompileWorkflow(workflow, command);
    if compiled.Failure? then Failure(Uncompilable(compiled.error))
    else
      var s := EngineState(workflow, command, mode, StateReady, None, None, compiled.value);
      if command == "develop" && mode.None? then Success(Paused(s, ModePause, ChooseMode))
      else if HasControlData(s.records) then Success(Advance(s))
      else Failure(InvalidCheckpoint)
  }

  // ---- beginBatch ----

  function FirstPending(rs: seq<Record>, i: nat): (k: nat)
    requires i <= |rs|
    ensures i <= k <= |rs|
    ensures k < |rs| ==> rs[k].status == Pending
    ensures forall j :: i <= j < k ==> rs[j].status != Pending
    decreases |rs| - i
  {
    if i == |rs| || rs[i].status == Pending then i else FirstPending(rs, i + 1)
  }

  function StartBatch(rs: seq<Record>, batch: string): seq<Record> {
    seq(|rs|, i requires 0 <= i < |rs| =>
      if rs[i].batch == batch then rs[i].(status := Running) else rs[i])
  }

  function BeginBatch(s: EngineState): Result<EngineState, EngineError> {
    if s.status != StateReady then Failure(NotReady)
    else
      var rs := s.records;
      var k := FirstPending(rs, 0);
      if k == |rs| || rs[k].kind != Agent
         || exists j :: 0 <= j < |rs| && rs[j].batch == rs[k].batch && rs[j].status != Pending
      then Failure(ReplayOrBypass)
      else Success(s.(activeBatch := Some(rs[k].batch), status := StateRunning,
                      records := StartBatch(rs, rs[k].batch)))
  }

  // ---- recordOutcome ----

  function ParseOutcome(raw: RawOutcome): Option<Outcome> {
    if raw.Malformed? || IsBlank(raw.summary) then None
    else Some(Outcome(raw.status, Trim(raw.summary), raw.review, raw.allDone))
  }

  function FindId(rs: seq<Record>, id: string): (k: nat)
    ensures k <= |rs|
    ensures k < |rs| ==> rs[k].id == id
    ensures forall j :: 0 <= j < k ==> rs[j].id != id
  {
    if rs == [] || rs[0].id == id then 0 else FindId(rs[1..], id) + 1
  }

  const MissingReport := "Missing report"

  function Settled(r: Record, report: Report): Record {
    var parsed := ParseOutcome(report.outcome);
    var kept := if parsed.Some? then r.(outcome := parsed) else r;
    if Truthy(report.error) || parsed.None? then
      kept.(status := Blocked, error := Some(if report.error.Some? then report.error.value else MissingReport))
    else
      kept.(status := match parsed.value.status
                      case OutcomeCompleted => Completed
                      case OutcomeBlocked => Blocked
                      case NeedsHuman => Waiting)
  }

  function RecordOutcome(s: EngineState, id: string, report: Report): Result<EngineState, EngineError> {
    var k := FindId(s.records, id);
    if s.status != StateRunning || k == |s.records| || s.records[k].status != Running
       || !InBatch(s.records[k], s.activeBatch)
    then Failure(NotInActiveBatch)
    else Success(s.(records := s.records[k := Settled(s.records[k], report)]))
  }

  // ---- closeLoops and settleBatch ----

  predicate Approves(r: Record) {
    r.role == Some("reviewer") && r.outcome.Some? && r.outcome.value.review == Some(Approved)
  }

  predicate ClaimsAllDone(r: Record) {
    r.role == Some("implementor") && r.outcome.Some? && r.outcome.value.allDone == Some(true)
  }

  predicate RequestsChanges(r: Record) {
    r.outcome.Some? && r.outcome.value.review == Some(ChangesRequested)
  }

  /** A reviewer of this very iteration has not run yet. */
  predicate AwaitsReview(r: Record, scope: LoopScope) {
    r.kind == Agent && r.role == Some("reviewer") && r.status == Pending && InIteration(r, scope)
  }

  function SkipLoop(rs: seq<Record>, loop: string): seq<Record> {
    seq(|rs|, i requires 0 <= i < |rs| =>
      if rs[i].status == Pending && InLoop(rs[i], loop) then rs[i].(status := Skipped) else rs[i])
  }

  function CloseOne(rs: seq<Record>, i: nat): seq<Record>
    requires i < |rs|
  {
    var r := rs[i];
    if !(Approves(r) || ClaimsAllDone(r)) || r.loops == [] then rs
    else if r.role == Some("implementor")
         && exists j :: i < j < |rs| && AwaitsReview(rs[j], InnermostLoop(r)) then rs
    else SkipLoop(rs, InnermostLoop(r).id)
  }

  function CloseFrom(rs: seq<Record>, batch: Option<string>, i: nat): (r: seq<Record>)
    requires i <= |rs|
    ensures SameTopology(rs, r)
    decreases |rs| - i
  {
    if i == |rs| then rs
    else CloseFrom(if InBatch(rs[i], batch) then CloseOne(rs, i) else rs, batch, i + 1)
  }

  function CloseLoops(rs: seq<Record>, batch: Option<string>): (r: seq<Record>)
    ensures SameTopology(rs, r)
  {
    if exists i :: 0 <= i < |rs| && InBatch(rs[i], batch) && RequestsChanges(rs[i]) then rs
    else CloseFrom(rs, batch, 0)
  }

  function FirstIn(rs: seq<Record>, batch: Option<string>, status: RecordStatus, i: nat): (k: nat)
    requires i <= |rs|
    ensures i <= k <= |rs|
    ensures k < |rs| ==> InBatch(rs[k], batch) && rs[k].status == status
    ensures forall j :: i <= j < k ==> !(InBatch(rs[j], batch) && rs[j].status == status)
    decreases |rs| - i
  {
    if i == |rs| || (InBatch(rs[i], batch) && rs[i].status == status) then i
    else FirstIn(rs, batch, status, i + 1)
  }

  lemma SameTopologyControl(a: seq<Record>, b: seq<Record>)
    requires SameTopology(a, b) && HasControlData(a)
    ensures HasControlData(b)
  {
    forall i | 0 <= i < |b|
      ensures (b[i].kind == LoopEnd ==> b[i].loops != []) && (b[i].kind == Human ==> b[i].prompt.Some?)
    {
      assert Topology(a[i]) == Topology(b[i]);
      assert Topology(a[i]).kind == a[i].kind && Topology(b[i]).kind == b[i].kind;
      assert Topology(a[i]).loops == a[i].loops && Topology(b[i]).prompt == b[i].prompt;
    }
  }

  const ReviewBatch := "Review batch"

  function SettleBatch(s: EngineState): Result<EngineState, EngineError>
    requires HasControlData(s.records)
  {
    var rs := s.records;
    if s.status != StateRunning || exists i :: 0 <= i < |rs| && rs[i].status == Running then Failure(NotSettled)
    else
      var t := s.(activeBatch := None);
      var blocked := FirstIn(rs, s.activeBatch, Blocked, 0);
      var human := FirstIn(rs, s.activeBatch, Waiting, 0);
      if blocked < |rs| then
        Success(Paused(t, FailurePause,
                       if rs[blocked].error.Some? then rs[blocked].error.value else Summary(rs[blocked])))
      else if human < |rs| then Success(Paused(t, ReportPause, Summary(rs[human])))
      else
        SameTopologyControl(rs, CloseLoops(rs, s.activeBatch));
        var next := Advance(t.(records := CloseLoops(rs, s.activeBatch)));
        Success(if next.mode == Some(Semi) && next.status == StateReady
                then Paused(next, SemiPause, ReviewBatch) else next)
  }

  // ---- answerCheckpoint ----

  function FirstWaitingHuman(rs: seq<Record>, i: nat): (k: nat)
    requires i <= |rs|
    ensures i <= k <= |rs|
    ensures k < |rs| ==> rs[k].kind == Human && rs[k].status == Waiting
    ensures forall j :: i <= j < k ==> !(rs[j].kind == Human && rs[j].status == Waiting)
    decreases |rs| - i
  {
    if i == |rs| || (rs[i].kind == Human && rs[i].status == Waiting) then i else FirstWaitingHuman(rs, i + 1)
  }

  lemma AnsweredControl(rs: seq<Record>, k: nat, answer: string)
    requires HasControlData(rs) && k < |rs|
    ensures HasControlData(rs[k := rs[k].(status := Completed, answer := Some(answer))])
  {
  }

  function AnswerCheckpoint(s: EngineState, answer: string): Result<EngineState, EngineError>
    requires HasControlData(s.records)
  {
    if s.status != StateWaiting || s.pause.None?
       || s.pause.value.kind !in {ModePause, HumanPause, SemiPause} then Failure(NeedsDecision)
    else if IsBlank(answer) then Failure(EmptyAnswer)
    else if s.pause.value.kind == ModePause then
      var choice := Lower(Trim(answer));
      if choice == "semi" then Success(Advance(s.(mode := Some(Semi))))
      else if choice == "auto" then Success(Advance(s.(mode := Some(Auto))))
      else Failure(UnknownMode)
    else if s.pause.value.kind == HumanPause then
      var k := FirstWaitingHuman(s.records, 0);
      if k == |s.records| then Failure(InvalidCheckpoint)
      else
        AnsweredControl(s.records, k, answer);
        Success(Advance(s.(records := s.records[k := s.records[k].(status := Completed, answer := Some(answer))])))
    else Success(Advance(s))
  }

  // ---- interruptEngine ----

  function InterruptRecords(rs: seq<Record>): seq<Record> {
    seq(|rs|, i requires 0 <= i < |rs| =>
      if rs[i].status == Running then rs[i].(status := Interrupted) else rs[i])
  }

  function InterruptEngine(s: EngineState, message: string): EngineState {
    Paused(s.(records := InterruptRecords(s.records), activeBatch := None), InterruptedPause, message)
  }

  // ---- parseEngineState ----

  function NormalizeRecord(r: Record): Record {
    if r.outcome.Some? then r.(outcome := Some(r.outcome.value.(summary := Trim(r.outcome.value.summary)))) else r
  }

  function NormalizeRecords(rs: seq<Record>): seq<Record> {
    seq(|rs|, i requires 0 <= i < |rs| => NormalizeRecord(rs[i]))
  }

  predicate ParsableRecord(r: Record) {
    && (r.outcome.Some? ==> !IsBlank(r.outcome.value.summary))
    && forall x :: 0 <= x < |r.loops| ==> r.loops[x].iteration > 0 && r.loops[x].max > 0
  }

  function FirstUnfinished(rs: seq<Record>, i: nat): (k: nat)
    requires i <= |rs|
    ensures i <= k <= |rs|
    ensures k < |rs| ==> !Done(rs[k])
    ensures forall j :: i <= j < k ==> Done(rs[j])
    decreases |rs| - i
  {
    if i == |rs| || !Done(rs[i]) then i else FirstUnfinished(rs, i + 1)
  }

  predicate AcceptsRecord(s: EngineState, r: Record) {
    && (r.kind == Agent && r.status == Completed ==>
          r.outcome.Some? && r.outcome.value.status == OutcomeCompleted && !Truthy(r.error))
    && (r.kind == Human && r.status == Completed ==> r.answer.Some? && !IsBlank(r.answer.value))
    && (r.status == Running ==> s.status == StateRunning && InBatch(r, s.activeBatch))
  }

  predicate UnfinishedPending(rs: seq<Record>, from: nat) {
    forall j :: from <= j < |rs| && !Done(rs[j]) ==> rs[j].status == Pending
  }

  /** The cross-field checks on a checkpoint whose topology already matches. */
  predicate Accepts(s: EngineState) {
    var rs := s.records;
    var kind := if s.pause.Some? then Some(s.pause.value.kind) else None;
    var k := FirstUnfinished(rs, 0);
    && (forall i :: 0 <= i < |rs| ==> AcceptsRecord(s, rs[i]))
    && (s.status == StateRunning <==> s.activeBatch.Some?)
    && (s.status == StateCompleted ==> k == |rs|)
    && (s.status in {StateWaiting, StateBlocked, StateInterrupted} <==> s.pause.Some?)
    && (s.command == "develop" && s.mode.None? ==>
          && (forall i :: 0 <= i < |rs| ==> rs[i].status == Pending)
          && (kind == Some(ModePause) || kind == Some(InterruptedPause)))
    && (s.status == StateReady || kind == Some(SemiPause) ==>
          && k < |rs| && rs[k].kind == Agent && UnfinishedPending(rs, 0)
          && (kind == Some(SemiPause) ==> s.mode == Some(Semi)))
    && (kind == Some(HumanPause) ==>
          k < |rs| && rs[k].kind == Human && rs[k].status == Waiting && UnfinishedPending(rs, k + 1))
    && (kind == Some(ReportPause) ==>
          exists i :: 0 <= i < |rs| && rs[i].status == Waiting
                      && rs[i].outcome.Some? && rs[i].outcome.value.status == NeedsHuman)
    && (s.status == StateBlocked ==> kind == Some(FailurePause))
    && (s.status == StateInterrupted ==> kind == Some(InterruptedPause))
    && (s.status == StateWaiting ==>
          kind in {Some(HumanPause), Some(ModePause), Some(SemiPause), Some(ReportPause)})
  }

  function ParseEngineState(s: EngineState): Result<EngineState, EngineError> {
    if |s.records| > MAX_RECORDS || exists i :: 0 <= i < |s.records| && !ParsableRecord(s.records[i])
    then Failure(InvalidCheckpoint)
    else
      var t := s.(records := NormalizeRecords(s.records));
      var compiled := CompileWorkflow(t.workflow, t.command);
      if compiled.Failure? then Failure(Uncompilable(compiled.error))
      else if !SameTopology(compiled.value, t.records) || !Accepts(t) then Failure(InvalidCheckpoint)
      else Success(t)
  }

  // ---- resuming and restarting ----

  function FirstAgentWith(rs: seq<Record>, status: RecordStatus, i: nat): (k: nat)
    requires i <= |rs|
    ensures i <= k <= |rs|
    ensures k < |rs| ==> rs[k].kind == Agent && rs[k].status == status
    ensures forall j :: i <= j < k ==> !(rs[j].kind == Agent && rs[j].status == status)
    decreases |rs| - i
  {
    if i == |rs| || (rs[i].kind == Agent && rs[i].status == status) then i else FirstAgentWith(rs, status, i + 1)
  }

  /** The record stands in the way of continuing the batch of record `first`. */
  predicate Obstructs(rs: seq<Record>, i: nat, first: nat, status: RecordStatus)
    requires i < |rs| && first < |rs|
  {
    var r := rs[i];
    if r.batch == rs[first].batch then
      if status == Blocked && r.kind == Agent && r.status == Skipped then false
      else if status == Blocked && r.kind == Agent && r.status == Waiting then
        !(r.outcome.Some? && r.outcome.value.status == NeedsHuman) || r.error.Some?
      else r.kind != Agent || (r.status != status && r.status != Completed)
    else if i < first then !Done(r)
    else r.status != Pending && r.status != Skipped
  }

  function CheckResumable(rs: seq<Record>, status: RecordStatus): Result<nat, EngineError> {
    var first := FirstAgentWith(rs, status, 0);
    if first == |rs| then Failure(NothingToResume)
    else if exists i :: 0 <= i < |rs| && Obstructs(rs, i, first, status) then Failure(BypassesWork)
    else Success(first)
  }

  /** Put every record of that status back to work, forgetting its previous attempt when asked to. */
  function Rerun(rs: seq<Record>, status: RecordStatus, forget: bool): seq<Record> {
    seq(|rs|, i requires 0 <= i < |rs| =>
      if rs[i].status != status then rs[i]
      else if forget then rs[i].(status := Running, outcome := None, error := None)
      else rs[i].(status := Running))
  }

  function FirstWith(rs: seq<Record>, status: RecordStatus, i: nat): (k: nat)
    requires i <= |rs|
    ensures i <= k <= |rs|
    ensures k < |rs| ==> rs[k].status == status
    ensures forall j :: i <= j < k ==> rs[j].status != status
    decreases |rs| - i
  {
    if i == |rs| || rs[i].status == status then i else FirstWith(rs, status, i + 1)
  }

  function Restarted(t: EngineState, status: RecordStatus, forget: bool): Result<EngineState, EngineError> {
    var checked := CheckResumable(t.records, status);
    if checked.Failure? then Failure(checked.error)
    else
      var k := FirstWith(t.records, status, 0);
      if forget && status == Waiting
         && exists i :: 0 <= i < |t.records| && t.records[i].status == status
                        && (!(t.records[i].outcome.Some? && t.records[i].outcome.value.status == NeedsHuman)
                            || t.records[i].error.Some?)
      then Failure(ReportRequired)
      else if k == |t.records| then Failure(NothingToResume)
      else ParseEngineState(t.(records := Rerun(t.records, status, forget), status := StateRunning,
                               activeBatch := Some(t.records[k].batch), pause := None))
  }

  function Resume(s: EngineState, status: EngineStatus, kind: PauseKind, record: RecordStatus, forget: bool)
    : Result<EngineState, EngineError>
  {
    var parsed := ParseEngineState(s);
    if parsed.Failure? then parsed
    else if parsed.value.status != status || parsed.value.pause.None? || parsed.value.pause.value.kind != kind
    then Failure(NotPausedHere)
    else Restarted(parsed.value, record, forget)
  }

  function ResumeInterruptedBatch(s: EngineState): Result<EngineState, EngineError> {
    Resume(s, StateInterrupted, InterruptedPause, Interrupted, false)
  }

  function ResumeReportedBatch(s: EngineState): Result<EngineState, EngineError> {
    Resume(s, StateWaiting, ReportPause, Waiting, true)
  }

  function RestartBlockedBatch(s: EngineState): Result<EngineState, EngineError> {
    Resume(s, StateBlocked, FailurePause, Blocked, true)
  }

  // ---- restoreEngine ----

  const WasInterrupted := "Interrupted"

  function RestoreEngine(s: EngineState): Result<EngineState, EngineError> {
    var parsed := ParseEngineState(s);
    if parsed.Success? && parsed.value.status == StateRunning
    then Success(InterruptEngine(parsed.value, WasInterrupted)) else parsed
  }
}
