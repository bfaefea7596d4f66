/** The transitions as they run: assignments on a private copy of the state. */
module EngineDraft {
  import opened Wrappers
  import opened Text
  import opened Workflows
  import opened Records
  import opened Compile
  import Expansion
  import opened Engine

  class Draft {
    const workflow: Workflow
    const command: string
    var mode: Option<Mode>
    var status: EngineStatus
    var pause: Option<Pause>
    var activeBatch: Option<string>
    var records: seq<Record>

    function View(): EngineState
      reads this
    {
      EngineState(workflow, command, mode, status, pause, activeBatch, records)
    }

    constructor (s: EngineState)
      ensures View() == s
    {
      workflow, command, mode := s.workflow, s.command, s.mode;
      status, pause, activeBatch, records := s.status, s.pause, s.activeBatch, s.records;
    }

    method PauseFor(kind: PauseKind, message: string)
      modifies this
      ensures View() == Paused(old(View()), kind, message)
    {
      status := StateWaiting;
      if kind == FailurePause {
        status := StateBlocked;
      }
      if kind == InterruptedPause {
        status := StateInterrupted;
      }
      pause := Some(Pause(kind, message));
    }

    method Advance()
      requires HasControlData(records)
      modifies this
      ensures View() == Engine.Advance(old(View()))
    {
      ghost var start := records;
      pause := None;
      var i := 0;
      while i < |records|
        invariant 0 <= i <= |records| == |start| && HasControlData(start)
        invariant records == Passed(start, i)
        invariant Halting(start, 0) == Halting(start, i)
        invariant View() == old(View()).(pause := None, records := records)
      {
        if records[i].status == Pending {
          match records[i].kind
          case Human =>
            records := WithStatus(records, i, Waiting);
            PauseFor(HumanPause, records[i].prompt.value);
            return;
          case Agent =>
            status := StateReady;
            return;
          case LoopEnd =>
            var loop := InnermostLoop(records[i]);
            if loop.iteration == loop.max {
              records := WithStatus(records, i, Blocked);
              PauseFor(FailurePause, ExhaustedMessage(loop));
              return;
            }
            records := WithStatus(records, i, Completed);
        }
        i := i + 1;
      }
      status := StateCompleted;
    }

    method SkipPending(loop: string)
      modifies this
      ensures View() == old(View()).(records := SkipLoop(old(records), loop))
    {
      ghost var start := records;
      for i := 0 to |records|
        invariant |records| == |start|
        invariant View() == old(View()).(records := records)
        invariant forall j :: 0 <= j < i ==> records[j] == SkipLoop(start, loop)[j]
        invariant forall j :: i <= j < |start| ==> records[j] == start[j]
      {
        if records[i].status == Pending && InLoop(records[i], loop) {
          records := WithStatus(records, i, Skipped);
        }
      }
      assert records == SkipLoop(start, loop);
    }

    method PutToWork(record: RecordStatus, forget: bool)
      modifies this
      ensures View() == old(View()).(records := Rerun(old(records), record, forget))
    {
      ghost var start := records;
      for i := 0 to |records|
        invariant |records| == |start|
        invariant View() == old(View()).(records := records)
        invariant forall j :: 0 <= j < i ==> records[j] == Rerun(start, record, forget)[j]
        invariant forall j :: i <= j < |start| ==> records[j] == start[j]
      {
        if records[i].status == record {
          var attempt := records[i].(status := Running);
          if forget {
            attempt := attempt.(outcome := None, error := None);
          }
          records := records[i := attempt];
        }
      }
      assert records == Rerun(start, record, forget);
    }

    method CloseLoops(batch: Option<string>)
      modifies this
      ensures View() == old(View()).(records := Engine.CloseLoops(old(records), batch))
    {
      ghost var start := records;
      for i := 0 to |records|
        invariant records == start && View() == old(View())
        invariant forall j :: 0 <= j < i ==> !(InBatch(records[j], batch) && RequestsChanges(records[j]))
      {
        if InBatch(records[i], batch) && RequestsChanges(records[i]) {
          return;
        }
      }
      var i := 0;
      while i < |records|
        invariant 0 <= i <= |records| == |start|
        invariant View() == old(View()).(records := records)
        invariant CloseFrom(start, batch, 0) == CloseFrom(records, batch, i)
      {
        if InBatch(records[i], batch) {
          CloseRecord(i);
        }
        i := i + 1;
      }
    }

    method CloseRecord(i: nat)
      requires i < |records|
      modifies this
      ensures View() == old(View()).(records := CloseOne(old(records), i))
    {
      var record := records[i];
      if !(Approves(record) || ClaimsAllDone(record)) || record.loops == [] {
        return;
      }
      var loop := InnermostLoop(record);
      if record.role == Some("implementor") {
        for j := i + 1 to |records|
          invariant forall k :: i < k < j ==> !AwaitsReview(records[k], loop)
        {
          if AwaitsReview(records[j], loop) {
            return;
          }
        }
      }
      SkipPending(loop.id);
    }
  }

  method CreateEngine(workflow: Workflow, command: string, mode: Option<Mode>)
    returns (r: Result<EngineState, EngineError>)
    ensures r == Engine.CreateEngine(workflow, command, mode)
  {
    var compiled := Expansion.CompileRecords(workflow, command);
    if compiled.Failure? {
      return Failure(Uncompilable(compiled.error));
    }
    var draft := new Draft(EngineState(workflow, command, mode, StateReady, None, None, compiled.value));
    if command == "develop" && mode.None? {
      draft.PauseFor(ModePause, ChooseMode);
    } else if HasControlData(draft.records) {
      draft.Advance();
    } else {
      return Failure(InvalidCheckpoint);
    }
    return Success(draft.View());
  }

  method BeginBatch(input: EngineState) returns (r: Result<EngineState, EngineError>)
    ensures r == Engine.BeginBatch(input)
  {
    if input.status != StateReady {
      return Failure(NotReady);
    }
    var draft := new Draft(input);
    var first := FirstPending(draft.records, 0);
    if first == |draft.records| || draft.records[first].kind != Agent
       || exists j :: 0 <= j < |draft.records| && draft.records[j].batch == draft.records[first].batch
                      && draft.records[j].status != Pending
    {
      return Failure(ReplayOrBypass);
    }
    var batch := draft.records[first].batch;
    draft.activeBatch := Some(batch);
    draft.status := StateRunning;
    for i := 0 to |draft.records|
      modifies draft
      invariant draft.View() == input.(activeBatch := Some(batch), status := StateRunning, records := draft.records)
      invariant |draft.records| == |input.records|
      invariant forall j :: 0 <= j < i ==> draft.records[j] == StartBatch(input.records, batch)[j]
      invariant forall j :: i <= j < |input.records| ==> draft.records[j] == input.records[j]
    {
      if draft.records[i].batch == batch {
        draft.records := WithStatus(draft.records, i, Running);
      }
    }
    assert draft.records == StartBatch(input.records, batch);
    return Success(draft.View());
  }

  method RecordOutcome(input: EngineState, id: string, report: Report) returns (r: Result<EngineState, EngineError>)
    ensures r == Engine.RecordOutcome(input, id, report)
  {
    var draft := new Draft(input);
    var k := FindId(draft.records, id);
    if draft.status != StateRunning || k == |draft.records| || draft.records[k].status != Running
       || !InBatch(draft.records[k], draft.activeBatch)
    {
      return Failure(NotInActiveBatch);
    }
    var record := draft.records[k];
    var parsed := ParseOutcome(report.outcome);
    if parsed.Some? {
      record := record.(outcome := parsed);
    }
    if Truthy(report.error) || parsed.None? {
      record := record.(status := Blocked);
      record := record.(error := Some(if report.error.Some? then report.error.value else MissingReport));
    } else {
      record := record.(status := match parsed.value.status
                                  case OutcomeCompleted => Completed
                                  case OutcomeBlocked => Blocked
                                  case NeedsHuman => Waiting);
    }
    draft.records := draft.records[k := record];
    return Success(draft.View());
  }

  method SettleBatch(input: EngineState) returns (r: Result<EngineState, EngineError>)
    requires HasControlData(input.records)
    ensures r == Engine.SettleBatch(input)
  {
    if input.status != StateRunning || exists i :: 0 <= i < |input.records| && input.records[i].status == Running {
      return Failure(NotSettled);
    }
    var draft := new Draft(input);
    var batch := draft.activeBatch;
    draft.activeBatch := None;
    var blocked := FirstIn(draft.records, batch, Blocked, 0);
    if blocked < |draft.records| {
      var record := draft.records[blocked];
      draft.PauseFor(FailurePause, if record.error.Some? then record.error.value else Summary(record));
      return Success(draft.View());
    }
    var human := FirstIn(draft.records, batch, Waiting, 0);
    if human < |draft.records| {
      draft.PauseFor(ReportPause, Summary(draft.records[human]));
      return Success(draft.View());
    }
    draft.CloseLoops(batch);
    SameTopologyControl(input.records, draft.records);
    draft.Advance();
    if draft.mode == Some(Semi) && draft.status == StateReady {
      draft.PauseFor(SemiPause, ReviewBatch);
    }
    return Success(draft.View());
  }

  method AnswerCheckpoint(input: EngineState, answer: string) returns (r: Result<EngineState, EngineError>)
    requires HasControlData(input.records)
    ensures r == Engine.AnswerCheckpoint(input, answer)
  {
    if input.status != StateWaiting || input.pause.None?
       || input.pause.value.kind !in {ModePause, HumanPause, SemiPause}
    {
      return Failure(NeedsDecision);
    }
    if IsBlank(answer) {
      return Failure(EmptyAnswer);
    }
    var draft := new Draft(input);
    if input.pause.value.kind == ModePause {
      var mode := Lower(Trim(answer));
      if mode != "semi" && mode != "auto" {
        return Failure(UnknownMode);
      }
      draft.mode := Some(if mode == "semi" then Semi else Auto);
    } else if input.pause.value.kind == HumanPause {
      var k := FirstWaitingHuman(draft.records, 0);
      if k == |draft.records| {
        return Failure(InvalidCheckpoint);
      }
      AnsweredControl(draft.records, k, answer);
      draft.records := draft.records[k := draft.records[k].(status := Completed, answer := Some(answer))];
    }
    draft.Advance();
    return Success(draft.View());
  }

  method InterruptEngine(input: EngineState, message: string) returns (s: EngineState)
    ensures s == Engine.InterruptEngine(input, message)
  {
    var draft := new Draft(input);
    for i := 0 to |draft.records|
      modifies draft
      invariant draft.View() == input.(records := draft.records)
      invariant |draft.records| == |input.records|
      invariant forall j :: 0 <= j < i ==> draft.records[j] == InterruptRecords(input.records)[j]
      invariant forall j :: i <= j < |input.records| ==> draft.records[j] == input.records[j]
    {
      if draft.records[i].status == Running {
        draft.records := WithStatus(draft.records, i, Interrupted);
      }
    }
    assert draft.records == InterruptRecords(input.records);
    draft.activeBatch := None;
    draft.PauseFor(InterruptedPause, message);
    return draft.View();
  }

  /** The part of a continuation after its first validation. */
  method Restart(start: EngineState, record: RecordStatus, forget: bool) returns (r: Result<EngineState, EngineError>)
    ensures r == Restarted(start, record, forget)
  {
    var checked := CheckResumable(start.records, record);
    if checked.Failure? {
      return Failure(checked.error);
    }
    var first := FirstWith(start.records, record, 0);
    if forget && record == Waiting
       && exists i :: 0 <= i < |start.records| && start.records[i].status == record
                      && (!(start.records[i].outcome.Some? && start.records[i].outcome.value.status == NeedsHuman)
                          || start.records[i].error.Some?)
    {
      return Failure(ReportRequired);
    }
    if first == |start.records| {
      return Failure(NothingToResume);
    }
    var draft := new Draft(start);
    draft.PutToWork(record, forget);
    draft.activeBatch := Some(start.records[first].batch);
    draft.status := StateRunning;
    draft.pause := None;
    return ParseEngineState(draft.View());
  }

  /** The three continuations share their shape: validate, select, rerun, validate again. */
  method Resume(input: EngineState, status: EngineStatus, kind: PauseKind, record: RecordStatus, forget: bool)
    returns (r: Result<EngineState, EngineError>)
    ensures r == Engine.Resume(input, status, kind, record, forget)
  {
    var parsed := ParseEngineState(input);
    if parsed.Failure? {
      return parsed;
    }
    var start := parsed.value;
    if start.status != status || start.pause.None? || start.pause.value.kind != kind {
      return Failure(NotPausedHere);
    }
    r := Restart(start, record, forget);
  }
}
