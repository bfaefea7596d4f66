/** What the orchestrated drive amounts to: one batch begun, every child run and reported, the barrier crossed. */
module DriveRuns {
  import opened Wrappers
  import opened Text
  import opened Workflows
  import opened Records
  import opened Engine
  import opened EngineInvariant
  import opened EngineTransitions
  import opened EngineCheckpoints
  import opened EngineConfluence
  import opened BatchOutcomes
  import opened Continuations
  import opened Continuing
  import opened WorkflowRuntime
  import opened RuntimeProofs

  // ---- Launching ----

  predicate IsDocumentRole(role: string) {
    role == "aggregator" || role == "researcher" || role == "designer" || role == "planner" || role == "schemer"
    || role == "summarizer" || role == "archivist"
  }

  /** A call that has done nothing yet; roles that write no documents may be continued after a limit. */
  predicate Untried(r: Role, role: Option<string>) {
    && r.stage == Setup && r.outcome.None? && r.error.None? && r.resourceStop.None? && r.retained.None?
    && !r.completedBeforeCancellation && (r.preservesStop <==> !(role.Some? && IsDocumentRole(role.value)))
  }

  /** Launching starts one call for each running child, and for nobody else. */
  lemma LaunchExact(rs: seq<Record>)
    requires Structured(rs)
    ensures forall id :: id in LaunchedRoles(rs) <==> RunsAs(rs, id)
    ensures forall i :: 0 <= i < |rs| && rs[i].status == Running ==>
              rs[i].id in LaunchedRoles(rs) && Untried(LaunchedRoles(rs)[rs[i].id], rs[i].role)
  {
    forall id ensures id in LaunchedRoles(rs) <==> RunsAs(rs, id) {
      LaunchedIds(rs, id);
    }
    forall i | 0 <= i < |rs| && rs[i].status == Running
      ensures rs[i].id in LaunchedRoles(rs) && Untried(LaunchedRoles(rs)[rs[i].id], rs[i].role)
    {
      LaunchedOne(rs, i);
    }
  }

  lemma LaunchedOne(rs: seq<Record>, i: nat)
    requires Structured(rs) && i < |rs| && rs[i].status == Running
    ensures rs[i].id in LaunchedRoles(rs) && Untried(LaunchedRoles(rs)[rs[i].id], rs[i].role)
  {
    LaunchedIds(rs, rs[i].id);
    assert RunsAs(rs, rs[i].id);
    FindUnique(rs, i);
    NewRoleUntried(rs[i].role);
  }

  lemma NewRoleUntried(role: Option<string>)
    ensures Untried(NewRole(role), role)
  {
  }

  lemma LaunchedIds(rs: seq<Record>, id: string)
    ensures id in LaunchedRoles(rs) <==> RunsAs(rs, id)
  {
  }

  // ---- One child's turn ----

  /** A child that reports once and returns. */
  datatype Turn = Turn(id: string, raw: RawOutcome, snapshot: Option<string>)

  function Take(s: Runtime, t: Turn): Runtime {
    var started := PromptStarted(s, t.id);
    var reported := ReportArrived(started, t.id, t.raw);
    ChildGone(PromptReturned(reported, t.id, PromptCompleted, false, t.snapshot), t.id, true)
  }

  function TakeAll(s: Runtime, turns: seq<Turn>): Runtime
    decreases |turns|
  {
    if turns == [] then s else TakeAll(Take(s, turns[0]), turns[1..])
  }

  function TurnEvents(t: Turn): seq<Event> {
    [PromptStarts(t.id), ReportArrives(t.id, t.raw), PromptReturns(t.id, PromptCompleted, false, t.snapshot),
     ChildDisposed(t.id, true)]
  }

  lemma TurnSteps(s: Runtime, t: Turn)
    requires CanStep(s)
    ensures Next(s, PromptStarts(t.id)) == PromptStarted(s, t.id)
    ensures Next(s, ReportArrives(t.id, t.raw)) == ReportArrived(s, t.id, t.raw)
    ensures Next(s, PromptReturns(t.id, PromptCompleted, false, t.snapshot))
         == PromptReturned(s, t.id, PromptCompleted, false, t.snapshot)
    ensures Next(s, ChildDisposed(t.id, true)) == ChildGone(s, t.id, true)
  {
  }

  lemma DriveSteps(s: Runtime)
    requires CanStep(s)
    ensures Next(s, BeginDeclaredBatch) == BatchBegun(s) && Next(s, LaunchRoles) == RolesLaunched(s)
    ensures Next(s, SettleDeclaredBatch) == BatchSettled(s) && Next(s, DriveFails) == DriveFailed(s)
    ensures Next(s, PromptErrors) == PromptErred(s) && forall text :: Next(s, Continue(text)) == Continued(s, text)
  {
  }

  lemma SameEngine(s: Runtime, t: Turn)
    ensures PromptStarted(s, t.id).engine == s.engine && ReportArrived(s, t.id, t.raw).engine == s.engine
    ensures PromptReturned(s, t.id, PromptCompleted, false, t.snapshot).engine == s.engine
  {
  }

  /** A turn is these events, one after the other. */
  lemma TakeIsRun(s: Runtime, t: Turn)
    requires CanStep(s)
    ensures RunAll(s, TurnEvents(t)) == Take(s, t)
  {
    var a := PromptStarted(s, t.id);
    var b := ReportArrived(a, t.id, t.raw);
    var c := PromptReturned(b, t.id, PromptCompleted, false, t.snapshot);
    SameEngine(s, t);
    SameEngine(a, t);
    SameEngine(b, t);
    TurnSteps(s, t);
    TurnSteps(a, t);
    TurnSteps(b, t);
    TurnSteps(c, t);
    var events := TurnEvents(t);
    RunAllFirst(s, events);
    RunAllFirst(a, events[1..]);
    assert events[1..][1..] == events[2..];
    RunAllFirst(b, events[2..]);
    assert events[2..][1..] == events[3..];
    RunAllFirst(c, events[3..]);
    assert events[3..][1..] == [];
  }

  lemma RunAllFirst(s: Runtime, events: seq<Event>)
    requires CanStep(s) && events != []
    ensures RunAll(s, events) == RunAll(Next(s, events[0]), events[1..])
  {
  }

  /** What the engine is told. */
  function Told(raw: RawOutcome): Engine.Report {
    if ParseOutcome(raw).Some? then Engine.Report(RawOf(ParseOutcome(raw)), None)
    else Engine.Report(Malformed, Some("Invalid or duplicate report"))
  }

  function Reports(turns: seq<Turn>): (r: seq<ChildReport>)
    ensures |r| == |turns|
  {
    seq(|turns|, i requires 0 <= i < |turns| => ChildReport(turns[i].id, Told(turns[i].raw)))
  }

  ghost predicate Fresh(s: Runtime, id: string) {
    id in s.roles && exists role :: Untried(s.roles[id], role)
  }

  lemma TakeIs(s: Runtime, t: Turn)
    requires Fresh(s, t.id) && !s.aborted && s.engine.Some?
    ensures var u := Take(s, t);
            var r := RecordOutcome(s.engine.value, t.id, Told(t.raw));
            && u.engine == (if r.Success? then Some(r.value) else s.engine)
            && !u.aborted && u.phaseBusy == s.phaseBusy && t.id in u.roles && u.roles[t.id].stage == Finished
            && u.roles == s.roles[t.id := u.roles[t.id]]
  {
    var role := s.roles[t.id];
    var a := role.(stage := Prompting);
    var started := PromptStarted(s, t.id);
    assert started.roles == s.roles[t.id := a] && started.engine == s.engine && !started.aborted;
    var b := WorkflowRuntime.Report(a, t.raw, false);
    var reported := ReportArrived(started, t.id, t.raw);
    assert reported.roles == s.roles[t.id := b];
    var c := CloseAttempt(ReturnedRole(b, PromptCompleted, false), t.snapshot);
    var returned := PromptReturned(reported, t.id, PromptCompleted, false, t.snapshot);
    assert returned.roles == s.roles[t.id := c] && returned.engine == s.engine && !returned.aborted;
    ToldIs(a, t.raw, t.snapshot);
    assert DisposedRole(c, true) == c;
    Tail(returned, t.id, c);
  }

  lemma ToldIs(a: Role, raw: RawOutcome, snapshot: Option<string>)
    requires a.stage == Prompting && a.outcome.None? && a.error.None? && a.resourceStop.None? && a.retained.None?
    ensures var b := WorkflowRuntime.Report(a, raw, false);
            var c := CloseAttempt(ReturnedRole(b, PromptCompleted, false), snapshot);
            c.stage == Closing && c.completedBeforeCancellation && ReportOf(Concluded(c)) == Told(raw)
  {
  }

  lemma Tail(s: Runtime, id: string, c: Role)
    requires id in s.roles && s.roles[id] == c && c.stage == Closing && s.engine.Some? && !s.aborted
    ensures var u := ChildGone(s, id, true);
            var r := RecordOutcome(s.engine.value, id, ReportOf(Concluded(c)));
            && u.engine == (if r.Success? then Some(r.value) else s.engine)
            && !u.aborted && u.phaseBusy == s.phaseBusy && id in u.roles && u.roles[id].stage == Finished
            && u.roles == s.roles[id := u.roles[id]]
  {
    assert DisposedRole(c, true) == c;
  }

  /** Each turn is of a child that has not started, no child has two, and nobody else is in flight. */
  ghost predicate Expected(s: Runtime, turns: seq<Turn>) {
    && (forall j :: 0 <= j < |turns| ==> Fresh(s, turns[j].id))
    && (forall j, k :: 0 <= j < k < |turns| ==> turns[j].id != turns[k].id)
    && (forall id :: id in s.roles && s.roles[id].stage != Finished ==> HasTurn(turns, id))
  }

  predicate HasTurn(turns: seq<Turn>, id: string) {
    exists j :: 0 <= j < |turns| && turns[j].id == id
  }

  lemma ExpectedNext(s: Runtime, u: Runtime, turns: seq<Turn>)
    requires turns != [] && Expected(s, turns)
    requires var id := turns[0].id;
             id in u.roles && u.roles[id].stage == Finished && u.roles == s.roles[id := u.roles[id]]
    ensures Expected(u, turns[1..])
  {
    var t, rest := turns[0], turns[1..];
    forall id | id in u.roles && u.roles[id].stage != Finished ensures HasTurn(rest, id) {
      assert id != t.id && u.roles[id] == s.roles[id] && HasTurn(turns, id);
      var j :| 0 <= j < |turns| && turns[j].id == id;
      assert rest[j - 1] == turns[j];
    }
    forall j | 0 <= j < |rest| ensures Fresh(u, rest[j].id) {
      assert rest[j] == turns[j + 1] && Fresh(s, rest[j].id);
    }
  }

  /** Children that take their turns one after the other leave the engine their reports, and nobody in flight. */
  lemma {:induction false} TakesAll(s: Runtime, turns: seq<Turn>)
    requires s.engine.Some? && !s.aborted && Commit(s.engine.value, Reports(turns)).Success? && Expected(s, turns)
    ensures var u := TakeAll(s, turns);
            && u.engine == Some(Commit(s.engine.value, Reports(turns)).value)
            && !u.aborted && u.phaseBusy == s.phaseBusy && !InFlight(u)
    decreases |turns|
  {
    if turns == [] {
      NobodyLeft(s);
    } else {
      var t, rest := turns[0], turns[1..];
      var u := Take(s, t);
      TakeIs(s, t);
      ExpectedNext(s, u, turns);
      ReportsFirst(s.engine.value, turns);
      TakesAll(u, rest);
    }
  }

  lemma ReportsFirst(e: EngineState, turns: seq<Turn>)
    requires turns != [] && Commit(e, Reports(turns)).Success?
    ensures RecordOutcome(e, turns[0].id, Told(turns[0].raw)).Success?
    ensures Commit(e, Reports(turns))
         == Commit(RecordOutcome(e, turns[0].id, Told(turns[0].raw)).value, Reports(turns[1..]))
  {
    assert Reports(turns)[0] == ChildReport(turns[0].id, Told(turns[0].raw));
    assert Reports(turns)[1..] == Reports(turns[1..]);
  }

  lemma NobodyLeft(s: Runtime)
    requires Expected(s, [])
    ensures !InFlight(s)
  {
    forall id | id in s.roles ensures s.roles[id].stage == Finished {
      assert !HasTurn([], id);
    }
  }

  /**
   * The drive is the engine: beginning a batch, running its children to a report in any order and settling leaves
   * exactly the state that their reports lead to.
   */
  lemma DriveIsBarrier(s: Runtime, turns: seq<Turn>)
    requires Consistent(s) && s.engine.Some? && s.engine.value.status == StateReady
    requires s.phaseBusy && !s.aborted && !InFlight(s)
    requires BeginBatch(s.engine.value).Success? && OneEach(BeginBatch(s.engine.value).value, Reports(turns))
    ensures var u := TakeAll(RolesLaunched(BatchBegun(s)), turns);
            && CanStep(u) && !InFlight(u)
            && BatchSettled(u).engine.Some?
            && Success(BatchSettled(u).engine.value)
               == CommitAndSettle(BeginBatch(s.engine.value).value, Reports(turns))
  {
    var begun := BeginBatch(s.engine.value).value;
    BeginKeeps(s.engine.value);
    CommitAnswers(begun, Reports(turns));
    BatchEnds(begun, Reports(turns));
    ReadyToTake(s, begun, turns);
    var b := RolesLaunched(BatchBegun(s));
    TakesAll(b, turns);
    CompiledIsStructured(Commit(begun, Reports(turns)).value);
    BarrierIs(TakeAll(b, turns), begun, Reports(turns));
  }

  lemma ReadyToTake(s: Runtime, begun: EngineState, turns: seq<Turn>)
    requires s.engine.Some? && s.phaseBusy && !s.aborted && !InFlight(s)
    requires BeginBatch(s.engine.value) == Success(begun) && Inv(begun) && OneEach(begun, Reports(turns))
    ensures var b := RolesLaunched(BatchBegun(s));
            b.engine == Some(begun) && !b.aborted && b.phaseBusy && Expected(b, turns)
  {
    CompiledIsStructured(begun);
    Launched(s, begun);
    LaunchExact(begun.records);
    TurnsReady(RolesLaunched(BatchBegun(s)), begun, turns);
  }

  lemma BarrierIs(u: Runtime, begun: EngineState, reports: seq<ChildReport>)
    requires Commit(begun, reports).Success? && u.engine == Some(Commit(begun, reports).value)
    requires HasControlData(u.engine.value.records) && !u.aborted && u.phaseBusy && !InFlight(u)
    requires CommitAndSettle(begun, reports).Success?
    ensures BatchSettled(u).engine.Some?
    ensures Success(BatchSettled(u).engine.value) == CommitAndSettle(begun, reports)
  {
  }

  lemma Launched(s: Runtime, begun: EngineState)
    requires s.engine.Some? && s.phaseBusy && !s.aborted && !InFlight(s)
    requires BeginBatch(s.engine.value) == Success(begun) && begun.status == StateRunning
    ensures var b := RolesLaunched(BatchBegun(s));
            && b.engine == Some(begun) && b.roles == LaunchedRoles(begun.records)
            && !b.aborted && b.phaseBusy && b.rows == s.rows
  {
    var t := BatchBegun(s);
    assert t.engine == Some(begun) && t.roles == map[] && !InFlight(t);
  }

  lemma TurnFor(turns: seq<Turn>, id: string)
    ensures ReportFor(Reports(turns), id) ==> HasTurn(turns, id)
  {
    if ReportFor(Reports(turns), id) {
      var j :| 0 <= j < |Reports(turns)| && Reports(turns)[j].id == id;
      assert turns[j].id == id;
    }
  }

  lemma FreshFor(b: Runtime, rs: seq<Record>, id: string)
    requires RunsAs(rs, id)
    requires forall i :: 0 <= i < |rs| && rs[i].status == Running ==>
               rs[i].id in b.roles && Untried(b.roles[rs[i].id], rs[i].role)
    ensures Fresh(b, id)
  {
    var i :| 0 <= i < |rs| && rs[i].id == id && rs[i].status == Running;
    assert Untried(b.roles[id], rs[i].role);
  }

  lemma TurnsReady(b: Runtime, begun: EngineState, turns: seq<Turn>)
    requires Structured(begun.records) && b.roles == LaunchedRoles(begun.records) && OneEach(begun, Reports(turns))
    requires forall id :: id in b.roles <==> RunsAs(begun.records, id)
    requires forall i :: 0 <= i < |begun.records| && begun.records[i].status == Running ==>
               && begun.records[i].id in b.roles
               && Untried(b.roles[begun.records[i].id], begun.records[i].role)
    ensures Expected(b, turns)
  {
    var reports := Reports(turns);
    forall j | 0 <= j < |turns| ensures Fresh(b, turns[j].id) {
      assert RunsAs(begun.records, reports[j].id);
      FreshFor(b, begun.records, turns[j].id);
    }
    forall j, k | 0 <= j < k < |turns| ensures turns[j].id != turns[k].id {
      assert reports[j].id != reports[k].id;
    }
    forall id | id in b.roles ensures HasTurn(turns, id) {
      assert RunsAs(begun.records, id);
      var i :| 0 <= i < |begun.records| && begun.records[i].id == id && begun.records[i].status == Running;
      TurnFor(turns, id);
    }
  }

  // ---- Going on and giving up ----

  /** Continuing resumes what can be resumed, keeps every conversation, and is refused while a phase action is busy. */
  lemma ContinueExact(s: Runtime, instructions: string)
    requires Consistent(s) && CanStep(s) && !s.phaseBusy && Active(s)
    ensures var e, t := s.engine.value, Continued(s, instructions);
            && t.rows == s.rows
            && (CanResume(Some(e), s.rows) ==>
                  ResumeWorkflow(e).Success? && t == Runtime(Some(ResumeWorkflow(e).value), s.rows, map[], true, false))
            && (!CanResume(Some(e), s.rows) && Takes(e, instructions) ==>
                  AnswerCheckpoint(e, instructions).Success?
                  && t == Runtime(Some(AnswerCheckpoint(e, instructions).value), s.rows, map[], true, false))
            && (e.status == StateReady ==> t == Runtime(s.engine, s.rows, map[], true, false))
            && (!CanResume(Some(e), s.rows) && !Takes(e, instructions) && e.status != StateReady ==> t == s)
  {
    CompiledIsStructured(s.engine.value);
    AnswerExact(s.engine.value, instructions);
    CanResumeExact(s.engine.value, s.rows);
  }

  /** A drive that fails leaves no batch running: what still runs is interrupted, and a finished batch is settled. */
  lemma DriveFailsExact(s: Runtime)
    requires Consistent(s) && CanStep(s) && !InFlight(s) && s.engine.Some? && s.engine.value.status == StateRunning
    ensures var e, t := s.engine.value, DriveFailed(s);
            && t.engine.Some? && !t.phaseBusy && t.rows == s.rows && t.engine.value.status != StateRunning
            && (SomeRecord(e.records, Running) ==> t.engine.value == InterruptEngine(e, WasInterrupted))
            && (!SomeRecord(e.records, Running) ==> SettleBatch(e) == Success(t.engine.value))
  {
    var e := s.engine.value;
    if !SomeRecord(e.records, Running) {
      Settles(e);
    }
  }

  lemma Settles(e: EngineState)
    requires Inv(e) && e.status == StateRunning && HasControlData(e.records) && !SomeRecord(e.records, Running)
    ensures SettleBatch(e).Success? && SettleBatch(e).value.status != StateRunning
  {
    PausesOn(e);
    if SomeIn(e.records, e.activeBatch, Blocked) || SomeIn(e.records, e.activeBatch, Waiting) {
      SettleKeeps(e);
      Idle(SettleBatch(e).value);
    } else {
      BarrierCrossed(e);
    }
  }

  lemma Idle(t: EngineState)
    requires Inv(t) && t.activeBatch.None?
    ensures t.status != StateRunning
  {
    var lo, hi := Located(t);
  }

  /** A prompt that fails never leaves a batch running; resuming would take up exactly what it interrupted. */
  lemma PromptErrsExact(s: Runtime)
    requires Consistent(s) && s.engine.Some?
    ensures var e, t := s.engine.value, PromptErred(s);
            && t.engine.Some? && t.engine.value.status != StateRunning && t == s.(engine := t.engine)
            && (e.status != StateRunning ==> t == s)
            && (e.status == StateRunning && SomeRecord(e.records, Running)
                && !SomeRecord(e.records, Waiting) && !SomeRecord(e.records, Blocked) ==>
                  ResumeInterruptedBatch(t.engine.value) == Success(e))
  {
    var e := s.engine.value;
    if e.status == StateRunning {
      InterruptIs(e, WasInterrupted);
      if SomeRecord(e.records, Running) {
        ResumeUndoesInterrupt(e, WasInterrupted);
      }
    }
  }

  /** A phase starts exactly if nothing is busy or unfinished and its command compiles, and it starts from nothing. */
  lemma StartExact(s: Runtime, workflow: Workflow, command: string, mode: Option<Mode>)
    ensures var t := PhaseStarted(s, workflow, command, mode);
            var created := CreateEngine(workflow, command, mode);
            if !s.phaseBusy && (s.engine.None? || s.engine.value.status == StateCompleted) && created.Success? then
              t == Runtime(Some(created.value), [], map[], true, false)
            else t == s
  {
  }

  /** A drive returns only when the workflow has stopped and nobody is in flight; then the next action may come. */
  lemma ReturnExact(s: Runtime)
    requires Consistent(s)
    ensures var t := DriveReturned(s);
            && t == s.(phaseBusy := t.phaseBusy)
            && (!t.phaseBusy <==>
                  || !s.phaseBusy
                  || (!InFlight(s) && (s.engine.None? || s.engine.value.status == StateCompleted
                                       || s.engine.value.pause.Some?)))
  {
    if s.engine.Some? {
      var lo, hi := Located(s.engine.value);
    }
  }

  /** A new routed prompt leaves nothing of a workflow that is over, and everything of one that is not. */
  lemma RoutedExact(s: Runtime)
    requires Consistent(s)
    ensures var t := Routed(s);
            if s.engine.Some? && s.engine.value.status != StateCompleted then t == s
            else t == Runtime(None, [], map[], s.phaseBusy, s.aborted) && !InFlight(s)
  {
    if !Active(s) {
      RoutedDropsNoRole(s);
    }
  }
}
