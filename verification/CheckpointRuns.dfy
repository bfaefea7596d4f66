/** What accepting a checkpoint guarantees about every run that goes on from it, lawful or not. */
module CheckpointRuns {
  import opened Wrappers
  import opened Text
  import opened Workflows
  import opened Records
  import opened Compile
  import opened CompileProofs
  import opened CompileMeaning
  import opened Engine
  import opened EngineInvariant
  import opened EngineRuns
  import opened BatchOutcomes

  // ---- What is asked of a state ----

  /** Whoever is completed has earned it: an agent by a completed report, a checkpoint by an answer. */
  predicate Earned(r: Record) {
    && (r.kind == Agent && r.status == Completed ==> r.outcome.Some? && r.outcome.value.status == OutcomeCompleted)
    && (r.kind == Human && r.status == Completed ==> r.answer.Some? && !AllSpace(r.answer.value))
  }

  predicate AllEarned(rs: seq<Record>) {
    forall i :: 0 <= i < |rs| ==> Earned(rs[i])
  }

  /** Whatever is not finished has not started. */
  predicate OnlyPendingOpen(rs: seq<Record>) {
    forall i :: 0 <= i < |rs| && !Done(rs[i]) ==> rs[i].status == Pending
  }

  /** Whatever is not finished has not started or belongs to the batch, all of which has. */
  predicate OpenInBatch(rs: seq<Record>, batch: Option<string>) {
    forall i :: 0 <= i < |rs| ==>
      if InBatch(rs[i], batch) then
        Done(rs[i]) || (rs[i].kind == Agent && rs[i].status in {Running, Waiting, Blocked})
      else Done(rs[i]) || rs[i].status == Pending
  }

  /** Whatever is not finished has not started, but for one checkpoint that waits. */
  predicate OpenBehind(rs: seq<Record>) {
    exists k :: 0 <= k < |rs| && rs[k].kind == Human && rs[k].status == Waiting
                && forall i :: 0 <= i < |rs| && i != k ==> Done(rs[i]) || rs[i].status == Pending
  }

  /** The shape that each status gives to what is not finished yet; work that stopped may be anywhere. */
  predicate Orderly(s: EngineState) {
    match s.status
    case StateReady => OnlyPendingOpen(s.records)
    case StateRunning => OpenInBatch(s.records, s.activeBatch)
    case StateWaiting =>
      && ((PausedFor(s, ModePause) || PausedFor(s, SemiPause)) ==> OnlyPendingOpen(s.records))
      && (PausedFor(s, HumanPause) ==> OpenBehind(s.records))
    case StateCompleted => forall i :: 0 <= i < |s.records| ==> Done(s.records[i])
    case _ => true
  }

  predicate Trusted(s: EngineState) {
    Compiled(s) && AllEarned(s.records) && Orderly(s)
  }

  // ---- Advancing ----

  lemma AdvanceOrderly(s: EngineState)
    requires HasControlData(s.records) && AllEarned(s.records) && OnlyPendingOpen(s.records)
    ensures SameTopology(s.records, Advance(s).records) && AllEarned(Advance(s).records) && Orderly(Advance(s))
    ensures Advance(s).workflow == s.workflow && Advance(s).command == s.command
  {
    var rs, t := s.records, Advance(s);
    forall i | 0 <= i < |rs| ensures Topology(rs[i]) == Topology(t.records[i]) && Earned(t.records[i]) {
      assert Earned(rs[i]);
    }
    if Halting(rs, 0).AtHuman? {
      var k := Halting(rs, 0).k;
      assert t.records[k].kind == Human && t.records[k].status == Waiting;
    }
  }

  // ---- Transitions ----

  /** A begun batch: its members run, and everything before them is finished. */
  lemma BegunOpen(rs: seq<Record>, first: nat)
    requires Structured(rs) && AllEarned(rs) && OnlyPendingOpen(rs)
    requires first < |rs| && rs[first].kind == Agent && rs[first].status == Pending
    requires forall i :: 0 <= i < first ==> rs[i].status != Pending
    requires forall i :: 0 <= i < |rs| && rs[i].batch == rs[first].batch ==> rs[i].status == Pending
    ensures var c := StartBatch(rs, rs[first].batch);
            SameTopology(rs, c) && AllEarned(c) && OpenInBatch(c, Some(rs[first].batch))
  {
    var c := StartBatch(rs, rs[first].batch);
    forall i | 0 <= i < |rs|
      ensures Topology(rs[i]) == Topology(c[i]) && Earned(c[i])
      ensures rs[i].batch == rs[first].batch ==> rs[i].kind == Agent
    {
      assert Earned(rs[i]);
      if rs[i].batch == rs[first].batch {
        SameBatch(rs, i, first);
      }
    }
  }

  lemma BegunOrder(rs: seq<Record>, first: nat, i: nat, k: nat)
    requires Contiguous(rs) && OnlyPendingOpen(rs) && first < |rs| && rs[first].status == Pending && i < k < |rs|
    requires forall j :: 0 <= j < first ==> rs[j].status != Pending
    requires rs[k].batch == rs[first].batch
    ensures Done(rs[i]) || rs[i].batch == rs[k].batch
  {
  }

  lemma BeginTrusted(s: EngineState)
    requires Trusted(s) && BeginBatch(s).Success?
    ensures Trusted(BeginBatch(s).value)
    ensures forall i, k :: 0 <= i < k < |s.records| && BeginBatch(s).value.records[k].status == Running ==>
              Done(s.records[i]) || s.records[i].batch == s.records[k].batch
  {
    CompiledIsStructured(s);
    var rs, t := s.records, BeginBatch(s).value;
    var first := FirstPending(rs, 0);
    BegunOpen(rs, first);
    CompiledKept(s, t);
    forall i, k | 0 <= i < k < |rs| && t.records[k].status == Running
      ensures Done(rs[i]) || rs[i].batch == rs[k].batch
    {
      BegunOrder(rs, first, i, k);
    }
  }

  lemma RecordTrusted(s: EngineState, id: string, p: Report)
    requires Trusted(s) && RecordOutcome(s, id, p).Success?
    ensures Trusted(RecordOutcome(s, id, p).value)
  {
    var t, k := RecordOutcome(s, id, p).value, FindId(s.records, id);
    SettledAnswers(s.records[k], p);
    TopologyFields(t.records[k], s.records[k]);
    assert Earned(s.records[k]);
    forall i | 0 <= i < |s.records| ensures Topology(s.records[i]) == Topology(t.records[i]) {
    }
    CompiledKept(s, t);
  }

  lemma SettleTrusted(s: EngineState)
    requires Trusted(s) && HasControlData(s.records) && SettleBatch(s).Success?
    ensures Trusted(SettleBatch(s).value)
  {
    var rs := s.records;
    FirstShown(rs, s.activeBatch, Blocked);
    FirstShown(rs, s.activeBatch, Waiting);
    if !SomeIn(rs, s.activeBatch, Blocked) && !SomeIn(rs, s.activeBatch, Waiting) {
      ClosedOpen(rs, s.activeBatch);
      SameTopologyControl(rs, CloseLoops(rs, s.activeBatch));
      TrustedVia(s, s.(activeBatch := None, records := CloseLoops(rs, s.activeBatch)));
    }
  }

  /** What is left open when a batch is crossed has not started. */
  lemma ClosedOpen(rs: seq<Record>, batch: Option<string>)
    requires AllEarned(rs) && OpenInBatch(rs, batch) && forall i :: 0 <= i < |rs| ==> rs[i].status != Running
    requires !SomeIn(rs, batch, Blocked) && !SomeIn(rs, batch, Waiting)
    ensures AllEarned(CloseLoops(rs, batch)) && OnlyPendingOpen(CloseLoops(rs, batch))
  {
    var c := CloseLoops(rs, batch);
    ClosedOnly(rs, batch);
    forall i | 0 <= i < |c| ensures Earned(c[i]) && (Done(c[i]) || c[i].status == Pending) {
      assert Earned(rs[i]);
      assert SomeIn(rs, batch, rs[i].status) || !InBatch(rs[i], batch);
    }
  }

  /** A step that prepares the records and then advances. */
  lemma TrustedVia(s: EngineState, u: EngineState)
    requires Compiled(s) && u.workflow == s.workflow && u.command == s.command && SameTopology(s.records, u.records)
    requires HasControlData(u.records) && AllEarned(u.records) && OnlyPendingOpen(u.records)
    ensures Trusted(Advance(u))
    ensures Advance(u).status == StateReady ==> OnlyPendingOpen(Advance(u).records)
  {
    AdvanceOrderly(u);
    CompiledKept(s, u);
    CompiledKept(u, Advance(u));
  }

  /** Closing loops only turns pending records into skipped ones. */
  lemma ClosedOnly(rs: seq<Record>, batch: Option<string>)
    ensures var c := CloseLoops(rs, batch);
            && |c| == |rs|
            && forall i :: 0 <= i < |rs| ==>
                 c[i] == rs[i] || (rs[i].status == Pending && c[i] == rs[i].(status := Skipped))
  {
    ClosedFrom(rs, batch, 0);
  }

  lemma {:induction false} ClosedFrom(rs: seq<Record>, batch: Option<string>, i: nat)
    requires i <= |rs|
    ensures var c := CloseFrom(rs, batch, i);
            && |c| == |rs|
            && forall k :: 0 <= k < |rs| ==>
                 c[k] == rs[k] || (rs[k].status == Pending && c[k] == rs[k].(status := Skipped))
    decreases |rs| - i
  {
    if i < |rs| {
      var next := if InBatch(rs[i], batch) then CloseOne(rs, i) else rs;
      ClosedFrom(next, batch, i + 1);
    }
  }

  lemma AnswerTrusted(s: EngineState, answer: string)
    requires Trusted(s) && HasControlData(s.records) && AnswerCheckpoint(s, answer).Success?
    ensures Trusted(AnswerCheckpoint(s, answer).value)
  {
    assert SameTopology(s.records, s.records);
    if s.pause.value.kind == HumanPause {
      HumanTrusted(s, answer);
    } else if s.pause.value.kind == ModePause {
      TrustedVia(s, s.(mode := Some(Semi)));
      TrustedVia(s, s.(mode := Some(Auto)));
    } else {
      TrustedVia(s, s);
    }
  }

  lemma HumanTrusted(s: EngineState, answer: string)
    requires Trusted(s) && HasControlData(s.records) && AnswerCheckpoint(s, answer).Success?
    requires s.pause.value.kind == HumanPause
    ensures Trusted(AnswerCheckpoint(s, answer).value)
  {
    TrimStrips(answer);
    var k := FirstWaitingHuman(s.records, 0);
    AnsweredControl(s.records, k, answer);
    AnsweredOpen(s.records, k, answer);
    TrustedVia(s, s.(records := s.records[k := s.records[k].(status := Completed, answer := Some(answer))]));
  }

  lemma AnsweredOpen(rs: seq<Record>, k: nat, answer: string)
    requires AllEarned(rs) && OpenBehind(rs) && !AllSpace(answer)
    requires k < |rs| && rs[k].kind == Human && rs[k].status == Waiting
    ensures var c := rs[k := rs[k].(status := Completed, answer := Some(answer))];
            AllEarned(c) && OnlyPendingOpen(c) && SameTopology(rs, c)
  {
    var c := rs[k := rs[k].(status := Completed, answer := Some(answer))];
    forall i | 0 <= i < |c| ensures Earned(c[i]) && Topology(rs[i]) == Topology(c[i]) {
      assert Earned(rs[i]);
    }
  }

  lemma InterruptTrusted(s: EngineState, message: string)
    requires Compiled(s) && AllEarned(s.records)
    ensures Trusted(InterruptEngine(s, message))
  {
    var t := InterruptEngine(s, message);
    forall i | 0 <= i < |s.records| ensures Topology(s.records[i]) == Topology(t.records[i]) && Earned(t.records[i]) {
      assert Earned(s.records[i]);
    }
    CompiledKept(s, t);
  }

  // ---- The validator ----

  lemma UnfinishedIs(rs: seq<Record>)
    ensures UnfinishedPending(rs, 0) <==> OnlyPendingOpen(rs)
  {
  }

  /** The pause fits the status, a question has an asker, and nothing started before a mode was chosen. */
  predicate Coherent(t: EngineState) {
    && (t.pause.Some? <==> t.status in {StateWaiting, StateBlocked, StateInterrupted})
    && (t.status == StateBlocked ==> PausedFor(t, FailurePause))
    && (t.status == StateInterrupted ==> PausedFor(t, InterruptedPause))
    && (t.status == StateWaiting ==> t.pause.value.kind in {HumanPause, ModePause, SemiPause, ReportPause})
    && (PausedFor(t, SemiPause) ==> t.mode == Some(Semi))
    && (PausedFor(t, ReportPause) ==>
          exists i :: 0 <= i < |t.records| && t.records[i].status == Waiting && t.records[i].outcome.Some?
                      && t.records[i].outcome.value.status == NeedsHuman)
    && (t.command == "develop" && t.mode.None? ==>
          forall i :: 0 <= i < |t.records| ==> t.records[i].status == Pending)
  }

  lemma AcceptedCoherent(s: EngineState)
    requires ParseEngineState(s).Success?
    ensures var t := ParseEngineState(s).value;
            && Coherent(t)
            && forall i :: 0 <= i < |t.records| && t.records[i].status == Running ==>
                 t.status == StateRunning && InBatch(t.records[i], t.activeBatch)
  {
    var t := ParseEngineState(s).value;
    assert Accepts(t);
    forall i | 0 <= i < |t.records| && t.records[i].status == Running
      ensures t.status == StateRunning && InBatch(t.records[i], t.activeBatch)
    {
      assert AcceptsRecord(t, t.records[i]);
    }
  }

  /** What the validator lets through is trusted, except for work under way and for a mode question over open work. */
  lemma AcceptedTrusted(s: EngineState)
    requires ParseEngineState(s).Success?
    ensures var t := ParseEngineState(s).value;
            && Compiled(t) && AllEarned(t.records)
            && (t.status != StateRunning ==>
                  (Orderly(t) <==>
                     (t.status == StateWaiting && PausedFor(t, ModePause) ==> OnlyPendingOpen(t.records))))
  {
    var t := ParseEngineState(s).value;
    assert Accepts(t);
    forall i | 0 <= i < |t.records| ensures Earned(t.records[i]) {
      assert AcceptsRecord(t, t.records[i]);
      if t.records[i].answer.Some? {
        TrimStrips(t.records[i].answer.value);
      }
    }
    UnfinishedIs(t.records);
    if PausedFor(t, HumanPause) {
      HumanBehind(t);
    }
  }

  lemma HumanBehind(t: EngineState)
    requires Accepts(t) && PausedFor(t, HumanPause)
    ensures OpenBehind(t.records)
  {
    var k := FirstUnfinished(t.records, 0);
    assert t.records[k].kind == Human && t.records[k].status == Waiting;
    assert forall i :: 0 <= i < |t.records| && i != k ==> Done(t.records[i]) || t.records[i].status == Pending;
  }

  /** Normalizing changes summaries only. */
  lemma NormalizedSame(s: EngineState)
    requires ParseEngineState(s).Success?
    ensures var t := ParseEngineState(s).value;
            && t == s.(records := t.records) && |t.records| == |s.records|
            && forall i :: 0 <= i < |s.records| ==>
                 t.records[i].status == s.records[i].status && t.records[i].kind == s.records[i].kind
                 && t.records[i].batch == s.records[i].batch
  {
  }

  lemma ParsedOrderly(s: EngineState)
    requires ParseEngineState(s).Success? && Orderly(s)
    ensures Orderly(ParseEngineState(s).value)
  {
    var t := ParseEngineState(s).value;
    NormalizedSame(s);
    if s.status == StateWaiting && PausedFor(s, HumanPause) {
      var k :| 0 <= k < |s.records| && s.records[k].kind == Human && s.records[k].status == Waiting
               && forall i :: 0 <= i < |s.records| && i != k ==> Done(s.records[i]) || s.records[i].status == Pending;
      assert t.records[k].kind == Human && t.records[k].status == Waiting;
    }
  }

  /** Restoring is trusted exactly then. */
  lemma RestoredTrusted(s: EngineState)
    requires RestoreEngine(s).Success?
    ensures var t := RestoreEngine(s).value;
            && t.status != StateRunning && Compiled(t) && AllEarned(t.records) && Coherent(t)
            && (forall i :: 0 <= i < |t.records| ==> t.records[i].status != Running)
            && (Trusted(t) <==> (t.status == StateWaiting && PausedFor(t, ModePause) ==> OnlyPendingOpen(t.records)))
  {
    AcceptedTrusted(s);
    AcceptedCoherent(s);
    if ParseEngineState(s).value.status == StateRunning {
      InterruptTrusted(ParseEngineState(s).value, WasInterrupted);
      InterruptCoherent(ParseEngineState(s).value);
    }
  }

  lemma InterruptCoherent(s: EngineState)
    requires Coherent(s) && s.status == StateRunning
    ensures var t := InterruptEngine(s, WasInterrupted);
            Coherent(t) && forall i :: 0 <= i < |t.records| ==> t.records[i].status != Running
  {
  }

  lemma RestoreTrusted(s: EngineState)
    requires Trusted(s) && RestoreEngine(s).Success?
    ensures Trusted(RestoreEngine(s).value)
  {
    AcceptedTrusted(s);
    ParsedOrderly(s);
    if ParseEngineState(s).value.status == StateRunning {
      InterruptTrusted(ParseEngineState(s).value, WasInterrupted);
    }
  }

  /** Nothing stands open around a batch that may be continued. */
  lemma RerunInBatch(rs: seq<Record>, status: RecordStatus, forget: bool)
    requires Structured(rs) && CheckResumable(rs, status).Success? && status in {Interrupted, Waiting, Blocked}
    ensures var k := FirstWith(rs, status, 0);
            k < |rs| && OpenInBatch(Rerun(rs, status, forget), Some(rs[k].batch))
  {
    var first := FirstAgentWith(rs, status, 0);
    var k := FirstWith(rs, status, 0);
    assert !Obstructs(rs, k, first, status);
    forall i | 0 <= i < |rs|
      ensures var r := Rerun(rs, status, forget)[i];
              if rs[i].batch == rs[k].batch then Done(r) || (r.kind == Agent && r.status in {Running, Waiting, Blocked})
              else Done(r) || r.status == Pending
    {
      assert !Obstructs(rs, i, first, status);
    }
  }

  lemma ContinuedTrusted(s: EngineState, status: RecordStatus, forget: bool)
    requires Compiled(s) && Restarted(s, status, forget).Success? && status in {Interrupted, Waiting, Blocked}
    ensures Trusted(Restarted(s, status, forget).value)
  {
    CompiledIsStructured(s);
    RerunInBatch(s.records, status, forget);
    var t := s.(records := Rerun(s.records, status, forget), status := StateRunning,
                activeBatch := Some(s.records[FirstWith(s.records, status, 0)].batch), pause := None);
    AcceptedTrusted(t);
    ParsedOrderly(t);
  }

  lemma ResumedTrusted(s: EngineState, status: EngineStatus, kind: PauseKind, record: RecordStatus, forget: bool)
    requires Resume(s, status, kind, record, forget).Success? && record in {Interrupted, Waiting, Blocked}
    ensures Trusted(Resume(s, status, kind, record, forget).value)
  {
    AcceptedTrusted(s);
    ContinuedTrusted(ParseEngineState(s).value, record, forget);
  }

  // ---- Runs ----

  lemma StepTrusted(s: EngineState, e: Event)
    requires Trusted(s)
    ensures Trusted(Step(s, e))
  {
    CompiledIsStructured(s);
    if Apply(s, e).Success? {
      match e
      case Begin => BeginTrusted(s);
      case Reported(id, report) => RecordTrusted(s, id, report);
      case Settle => SettleTrusted(s);
      case Answered(answer) => AnswerTrusted(s, answer);
      case Interrupt(message) => InterruptTrusted(s, message);
      case ResumeInterrupted => ResumedTrusted(s, StateInterrupted, InterruptedPause, Interrupted, false);
      case ResumeReported => ResumedTrusted(s, StateWaiting, ReportPause, Waiting, true);
      case RestartBlocked => ResumedTrusted(s, StateBlocked, FailurePause, Blocked, true);
      case Restore => RestoreTrusted(s);
    }
  }

  lemma {:induction false} RunTrusted(s: EngineState, events: seq<Event>)
    requires Trusted(s)
    ensures Trusted(Run(s, events))
    decreases |events|
  {
    if events != [] {
      StepTrusted(s, events[0]);
      RunTrusted(Step(s, events[0]), events[1..]);
    }
  }

  /**
   * Whatever checkpoint the validator accepts, unless it asks for a mode over work that has started, no run from its
   * restored state ever begins a batch past a record that is not finished, and whoever is completed has earned it.
   */
  lemma NoBypass(s: EngineState, events: seq<Event>, i: nat, k: nat)
    requires RestoreEngine(s).Success?
    requires var t := RestoreEngine(s).value;
             t.status == StateWaiting && PausedFor(t, ModePause) ==> OnlyPendingOpen(t.records)
    requires var u := Run(RestoreEngine(s).value, events);
             && BeginBatch(u).Success? && i < k < |u.records| && BeginBatch(u).value.records[k].status == Running
    ensures var u := Run(RestoreEngine(s).value, events);
            Earned(u.records[i]) && (Done(u.records[i]) || u.records[i].batch == u.records[k].batch)
  {
    RestoredTrusted(s);
    RunTrusted(RestoreEngine(s).value, events);
    BeginTrusted(Run(RestoreEngine(s).value, events));
    assert Earned(Run(RestoreEngine(s).value, events).records[i]);
  }

  // ---- The exception is real ----

  const TwoSteps := Workflow(map["go" := Command("", TwoChain)])

  const TwoChain: seq<ChainStep> := [AgentStep("first"), AgentStep("second")]

  lemma TwoFit()
    ensures ValidChain(TwoChain, 0) && Count(TwoChain) == 2
  {
    assert TwoChain[1..] == [AgentStep("second")] && TwoChain[1..][1..] == [];
    NamedFits("first", 'f');
    NamedFits("second", 's');
    assert ValidSteps(TwoChain[1..], 0) && Count(TwoChain[1..]) == 1;
  }

  lemma NamedFits(name: string, c: char)
    requires name != "" && name[0] == c && !IsSpace(c)
    ensures ValidStep(AgentStep(name), 0) && CountStep(AgentStep(name)) == 1
  {
    TrimStrips(name);
  }

  lemma TwoTasks()
    ensures Tasks(TwoChain, []) == [Work("first", [], false), Work("second", [], false)]
  {
    assert TwoChain[1..] == [AgentStep("second")] && TwoChain[1..][1..] == [];
    assert Tasks(TwoChain[1..], []) == [Work("second", [], false)];
  }

  lemma TwoStepsCompile() returns (rs: seq<Record>)
    ensures CompileWorkflow(TwoSteps, "go") == Success(rs) && |rs| == 2
    ensures rs[0].kind == Agent && rs[1].kind == Agent && rs[0].batch != rs[1].batch && rs[0].loops == [] == rs[1].loops
    ensures AllFresh(rs)
  {
    TwoFit();
    TwoTasks();
    CompileExact(TwoSteps, "go");
    CompiledCarries(TwoSteps, "go");
    rs := CompileWorkflow(TwoSteps, "go").value;
    TwoShape(rs);
  }

  lemma TwoShape(rs: seq<Record>)
    requires Carries(rs, [Work("first", [], false), Work("second", [], false)])
    ensures |rs| == 2 && rs[0].kind == Agent && rs[1].kind == Agent && rs[0].batch != rs[1].batch
    ensures rs[0].loops == [] == rs[1].loops
  {
    var tasks := [Work("first", [], false), Work("second", [], false)];
    assert Does(rs[0], tasks[0]) && Does(rs[1], tasks[1]);
  }

  /** A mode question over failed work is accepted, and the answer "auto" lets the next batch begin past the failure. */
  lemma ModeBypass() returns (s: EngineState)
    ensures RestoreEngine(s) == Success(s) && |s.records| == 2 && s.records[0].status == Blocked
    ensures var u := Run(s, [Answered("auto")]);
            && BeginBatch(u).Success? && |u.records| == 2 && u.records[0].status == Blocked
            && BeginBatch(u).value.records[1].status == Running && u.records[0].batch != u.records[1].batch
  {
    var rs := TwoStepsCompile();
    var records := [rs[0].(status := Blocked), rs[1]];
    s := EngineState(TwoSteps, "go", None, StateWaiting, Some(Pause(ModePause, ChooseMode)), None, records);
    BypassAccepted(s, rs);
    AutoIs();
    BypassBegins(s, rs);
  }

  lemma AutoIs()
    ensures Lower(Trim("auto")) == "auto"
  {
    var s := "auto";
    assert s[0] == 'a' && s[|s| - 1] == 'o';
    TrimTrimmed(s);
  }

  lemma BypassAccepted(s: EngineState, rs: seq<Record>)
    requires CompileWorkflow(TwoSteps, "go") == Success(rs) && |rs| == 2 && AllFresh(rs)
    requires rs[0].loops == [] == rs[1].loops
    requires s == EngineState(TwoSteps, "go", None, StateWaiting, Some(Pause(ModePause, ChooseMode)), None,
                              [rs[0].(status := Blocked), rs[1]])
    ensures RestoreEngine(s) == Success(s)
  {
    FreshPair(rs, s.records);
    BypassAccepts(s);
    assert s.(records := s.records) == s;
  }

  lemma BypassAccepts(s: EngineState)
    requires |s.records| == 2 && s.records[0].status == Blocked && s.records[1].status == Pending
    requires s.command == "go" && s.status == StateWaiting && PausedFor(s, ModePause) && s.activeBatch.None?
    ensures Accepts(s)
  {
    assert !Done(s.records[0]) && FirstUnfinished(s.records, 0) == 0;
  }

  lemma FreshPair(rs: seq<Record>, records: seq<Record>)
    requires |rs| == 2 && AllFresh(rs) && rs[0].loops == [] == rs[1].loops
    requires records == [rs[0].(status := Blocked), rs[1]]
    ensures SameTopology(rs, records) && NormalizeRecords(records) == records
    ensures forall i :: 0 <= i < |records| ==> ParsableRecord(records[i])
  {
    assert Topology(rs[0]) == rs[0] && Topology(rs[1]) == rs[1];
    assert rs[0].outcome.None? && rs[1].outcome.None?;
  }

  lemma BypassBegins(s: EngineState, rs: seq<Record>)
    requires |rs| == 2 && AllFresh(rs) && rs[0].kind == Agent && rs[1].kind == Agent && rs[0].batch != rs[1].batch
    requires s == EngineState(TwoSteps, "go", None, StateWaiting, Some(Pause(ModePause, ChooseMode)), None,
                              [rs[0].(status := Blocked), rs[1]])
    requires Lower(Trim("auto")) == "auto"
    ensures var u := Run(s, [Answered("auto")]);
            && BeginBatch(u).Success? && |u.records| == 2 && u.records[0].status == Blocked
            && BeginBatch(u).value.records[1].status == Running && u.records[0].batch != u.records[1].batch
  {
    var e := s.(mode := Some(Auto));
    assert rs[1].status == Pending && Halting(e.records, 1) == AtAgent(1) && Halting(e.records, 0) == AtAgent(1);
    var u := Advance(e);
    assert Passed(e.records, 1) == e.records;
    assert AnswerCheckpoint(s, "auto") == Success(u);
    assert Step(s, Answered("auto")) == u;
    assert Run(s, [Answered("auto")]) == Run(u, []) == u;
    assert FirstPending(u.records, 1) == 1 && FirstPending(u.records, 0) == 1;
  }
}
