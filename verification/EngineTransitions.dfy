/** The exported transitions, one by one: each preserves the invariant. */
module EngineTransitions {
  import opened Wrappers
  import opened Text
  import opened Workflows
  import opened Records
  import opened Compile
  import opened CompileProofs
  import opened Engine
  import opened EngineInvariant
  import opened EngineSteps
  import opened LoopClosing

  // ---- createEngine ----

  lemma FreshSound(rs: seq<Record>)
    requires Structured(rs) && AllFresh(rs)
    ensures AllLocal(rs) && Uniform(rs) && Witnessed(rs)
  {
    forall i | 0 <= i < |rs|
      ensures LocalOk(rs[i])
    {
      assert WellShaped(rs[i]);
      assert Topology(rs[i]).outcome == None && Topology(rs[i]).error == None && Topology(rs[i]).answer == None;
    }
  }

  lemma CreateKeeps(workflow: Workflow, command: string, mode: Option<Mode>)
    requires CreateEngine(workflow, command, mode).Success?
    ensures Inv(CreateEngine(workflow, command, mode).value)
  {
    var rs := CompileWorkflow(workflow, command).value;
    var s := EngineState(workflow, command, mode, StateReady, None, None, rs);
    assert SameTopology(rs, rs);
    CompiledIsStructured(s);
    FreshSound(rs);
    if command == "develop" && mode.None? {
      var t := Paused(s, ModePause, ChooseMode);
      var hi := if rs == [] then 0 else BatchEnd(rs, 0, 1);
      if rs != [] {
        BatchAt(rs, 0);
      }
      assert FrontierAt(t, 0, hi);
    } else {
      AdvanceKeeps(s, 0);
    }
  }

  /** An engine exists exactly for the commands that compile; only "develop" asks for a mode, and before any work. */
  lemma CreateExact(workflow: Workflow, command: string, mode: Option<Mode>)
    ensures CreateEngine(workflow, command, mode).Success? <==> CompileWorkflow(workflow, command).Success?
    ensures CreateEngine(workflow, command, mode).Success? ==>
              var s := CreateEngine(workflow, command, mode).value;
              && s.workflow == workflow && s.command == command && s.mode == mode
              && (PausedFor(s, ModePause) <==> command == "develop" && mode.None?)
              && (PausedFor(s, ModePause) ==> s.records == CompileWorkflow(workflow, command).value)
  {
    if CompileWorkflow(workflow, command).Success? {
      var rs := CompileWorkflow(workflow, command).value;
      assert SameTopology(rs, rs);
      CompiledIsStructured(EngineState(workflow, command, mode, StateReady, None, None, rs));
    }
  }

  lemma Located(s: EngineState) returns (lo: nat, hi: nat)
    requires Inv(s)
    ensures FrontierAt(s, lo, hi)
  {
    lo, hi :| FrontierAt(s, lo, hi);
  }

  // ---- beginBatch ----

  lemma StartBatchOk(rs: seq<Record>, lo: nat, hi: nat)
    requires Structured(rs) && AllLocal(rs) && Uniform(rs) && Witnessed(rs)
    requires lo < |rs| && Frontier(rs, lo, hi) && rs[lo].kind == Agent && rs[lo].status == Pending
    ensures var c := StartBatch(rs, rs[lo].batch);
            && SameTopology(rs, c) && AllLocal(c) && Uniform(c) && Witnessed(c) && Evolves(rs, c)
            && NoNewSkips(rs, c)
            && Frontier(c, lo, hi) && Members(c, lo, hi, {Running})
            && (forall i :: 0 <= i < lo || hi <= i < |rs| ==> c[i] == rs[i])
  {
    var c := StartBatch(rs, rs[lo].batch);
    forall i | 0 <= i < |rs|
      ensures Topology(rs[i]) == Topology(c[i]) && LocalOk(c[i])
    {
      assert LocalOk(rs[i]);
      if lo <= i < hi {
        assert rs[i].status == Pending;
        SameBatch(rs, i, lo);
      }
    }
    SameFields(rs, c);
    WitnessedKept(rs, c);
  }

  lemma BeginKeeps(s: EngineState)
    requires Inv(s) && s.status == StateReady
    ensures BeginBatch(s).Success?
    ensures Inv(BeginBatch(s).value) && Evolves(s.records, BeginBatch(s).value.records)
            && NoNewSkips(s.records, BeginBatch(s).value.records)
  {
    CompiledIsStructured(s);
    var lo, hi := Located(s);
    assert FirstPending(s.records, 0) == lo by {
      assert DoneBefore(s.records, lo);
    }
    StartBatchOk(s.records, lo, hi);
    var t := BeginBatch(s).value;
    assert StatusOk(t, lo, hi);
    Assemble(s, t, lo, hi);
  }

  // ---- recordOutcome ----

  lemma SettledOk(r: Record, report: Report)
    requires r.kind == Agent && r.status == Running && LocalOk(r)
    ensures var c := Settled(r, report);
            LocalOk(c) && Topology(c) == Topology(r) && c.status in {Completed, Waiting, Blocked}
  {
    if report.outcome.RawOutcome? {
      TrimIdempotent(report.outcome.summary);
    }
  }

  lemma ReplaceMember(rs: seq<Record>, k: nat, r: Record, lo: nat, hi: nat)
    requires Structured(rs) && AllLocal(rs) && Uniform(rs) && Witnessed(rs) && lo < |rs| && Frontier(rs, lo, hi)
    requires lo <= k < hi && rs[k].status == Running
    requires LocalOk(r) && Topology(r) == Topology(rs[k]) && r.status in {Completed, Waiting, Blocked}
    ensures var c := rs[k := r];
            && SameTopology(rs, c) && AllLocal(c) && Uniform(c) && Witnessed(c) && Evolves(rs, c)
            && NoNewSkips(rs, c) && Frontier(c, lo, hi)
  {
    var c := rs[k := r];
    TopologyFields(r, rs[k]);
    UpdateEvolves(rs, k, r);
    UpdateLocal(rs, k, r);
    UpdateUniform(rs, k, r);
    WitnessedKept(rs, c);
    UpdateFrontier(rs, k, r, lo, hi);
  }

  lemma UpdateFrontier(rs: seq<Record>, k: nat, r: Record, lo: nat, hi: nat)
    requires lo < |rs| && Frontier(rs, lo, hi) && lo <= k < hi && r.batch == rs[k].batch
    ensures Frontier(rs[k := r], lo, hi)
  {
  }

  /** The reporting child is a member of the frontier batch. */
  lemma RecordPlace(s: EngineState, id: string) returns (lo: nat, hi: nat, k: nat)
    requires Inv(s) && s.status == StateRunning && FindId(s.records, id) < |s.records|
    requires s.records[FindId(s.records, id)].status == Running
    requires InBatch(s.records[FindId(s.records, id)], s.activeBatch)
    ensures Structured(s.records) && k == FindId(s.records, id) && lo < |s.records| && FrontierAt(s, lo, hi)
    ensures lo <= k < hi && s.records[k].kind == Agent
  {
    CompiledIsStructured(s);
    lo, hi := Located(s);
    k := FindId(s.records, id);
    assert lo <= k < hi;
    SameBatch(s.records, k, lo);
  }

  lemma RecordKeeps(s: EngineState, id: string, report: Report)
    requires Inv(s) && RecordOutcome(s, id, report).Success?
    ensures Inv(RecordOutcome(s, id, report).value)
            && Evolves(s.records, RecordOutcome(s, id, report).value.records)
            && NoNewSkips(s.records, RecordOutcome(s, id, report).value.records)
  {
    var lo, hi, k := RecordPlace(s, id);
    SettledOk(s.records[k], report);
    ReplaceMember(s.records, k, Settled(s.records[k], report), lo, hi);
    var t := RecordOutcome(s, id, report).value;
    MemberSettles(s, k, Settled(s.records[k], report), lo, hi);
    Assemble(s, t, lo, hi);
  }

  lemma MemberSettles(s: EngineState, k: nat, r: Record, lo: nat, hi: nat)
    requires FrontierAt(s, lo, hi) && ModeOk(s) && s.status == StateRunning && lo <= k < hi
    requires Frontier(s.records[k := r], lo, hi) && r.status in {Completed, Waiting, Blocked}
    requires r.kind == s.records[k].kind && r.batch == s.records[k].batch
    ensures var t := s.(records := s.records[k := r]);
            StatusOk(t, lo, hi) && ModeOk(t)
  {
  }

  // ---- settleBatch ----

  lemma SkipLoopLawful(rs: seq<Record>, scope: LoopScope)
    requires Structured(rs) && AllLocal(rs) && Uniform(rs)
    ensures var c := SkipLoop(rs, scope.id);
            SameTopology(rs, c) && AllLocal(c) && Uniform(c) && Evolves(rs, c)
  {
    var c := SkipLoop(rs, scope.id);
    SkipLoopClosed(rs, scope);
    SameFields(rs, c);
    forall i | 0 <= i < |c|
      ensures LocalOk(c[i])
    {
      assert LocalOk(rs[i]);
    }
    forall i, j | 0 <= i < |c| && 0 <= j < |c| && c[i].batch == c[j].batch && c[i].status == Pending
      ensures c[j].status == Pending
    {
      assert rs[i].status == Pending && rs[j].status == Pending;
      SameBatch(rs, i, j);
    }
  }

  /** Closing a loop skips only open records, each with its witness. */
  lemma SkipLoopWitnessed(rs: seq<Record>, lo: nat, hi: nat, scope: LoopScope)
    requires Structured(rs) && Witnessed(rs) && KeepsDone(rs, SkipLoop(rs, scope.id))
    requires SettledBatch(rs, lo, hi) && Closes(rs, lo, hi) && scope == InnermostLoop(rs[lo])
    ensures Witnessed(SkipLoop(rs, scope.id))
  {
    var c := SkipLoop(rs, scope.id);
    forall i | 0 <= i < |c| && c[i].status == Skipped
      ensures HasWitness(c, i)
    {
      if rs[i].status != Skipped {
        NewSkipWitness(rs, lo, hi, i, scope);
      }
      assert HasWitness(rs, i);
      var w :| 0 <= w < |rs| && Witness(rs, w, i);
      WitnessKept(rs, c, w, i);
    }
  }

  lemma NewSkipWitness(rs: seq<Record>, lo: nat, hi: nat, i: nat, scope: LoopScope)
    requires Structured(rs) && SettledBatch(rs, lo, hi) && Closes(rs, lo, hi) && scope == InnermostLoop(rs[lo])
    requires i < |rs| && rs[i].status == Pending && InLoop(rs[i], scope.id)
    ensures HasWitness(rs, i)
  {
    var w :| lo <= w < hi
      && (Approves(rs[w]) || (ClaimsAllDone(rs[w]) && !SomeApproves(rs, lo, hi)));
    if !Approves(rs[w]) {
      assert !AwaitsReview(rs[i], scope);
    }
    DeciderIsWitness(rs, lo, hi, i, scope, w);
  }

  lemma DeciderIsWitness(rs: seq<Record>, lo: nat, hi: nat, i: nat, scope: LoopScope, w: nat)
    requires Structured(rs) && SettledBatch(rs, lo, hi) && rs[lo].loops != [] && scope == InnermostLoop(rs[lo])
    requires !SomeRequestsChanges(rs, lo, hi)
    requires i < |rs| && rs[i].status == Pending && InLoop(rs[i], scope.id) && lo <= w < hi
    requires Approves(rs[w]) || (ClaimsAllDone(rs[w]) && !AwaitsReview(rs[i], scope))
    ensures Witness(rs, w, i)
  {
    assert hi <= i;
    SameBatch(rs, w, lo);
  }

  lemma CloseLoopsOk(rs: seq<Record>, lo: nat, hi: nat)
    requires Structured(rs) && AllLocal(rs) && Uniform(rs) && Witnessed(rs) && SettledBatch(rs, lo, hi)
    ensures var c := CloseLoops(rs, Some(rs[lo].batch));
            && SameTopology(rs, c) && AllLocal(c) && Uniform(c) && Witnessed(c) && Evolves(rs, c)
            && DoneBefore(c, hi) && OpenFrom(c, hi)
  {
    CloseLoopsDecides(rs, lo, hi);
    if Closes(rs, lo, hi) {
      SkipLoopLawful(rs, InnermostLoop(rs[lo]));
      SkipLoopWitnessed(rs, lo, hi, InnermostLoop(rs[lo]));
    }
  }

  lemma PauseBatch(s: EngineState, t: EngineState, lo: nat, hi: nat)
    requires Sound(s) && FrontierAt(s, lo, hi) && s.status == StateRunning
    requires Members(s.records, lo, hi, {Completed, Waiting, Blocked})
    requires t.records == s.records && t.workflow == s.workflow && t.command == s.command && t.mode == s.mode
    requires t.activeBatch.None?
    requires || (t.status == StateBlocked && PausedFor(t, FailurePause) && SomeMember(s.records, lo, hi, Blocked))
             || (t.status == StateWaiting && PausedFor(t, ReportPause) && SomeMember(s.records, lo, hi, Waiting)
                 && Members(s.records, lo, hi, {Completed, Waiting}))
    ensures Inv(t)
  {
    assert s.records[lo].status != Pending;
    assert FrontierAt(t, lo, hi);
  }

  lemma SemiKeeps(s: EngineState)
    requires Inv(s) && s.status == StateReady && s.mode == Some(Semi)
    ensures Inv(Paused(s, SemiPause, ReviewBatch))
  {
    var lo, hi := Located(s);
    assert FrontierAt(Paused(s, SemiPause, ReviewBatch), lo, hi);
  }

  lemma BarrierPassed(s: EngineState, lo: nat, hi: nat)
    requires Sound(s) && FrontierAt(s, lo, hi) && s.status == StateRunning && Members(s.records, lo, hi, {Completed})
    ensures var u := s.(activeBatch := None, records := CloseLoops(s.records, s.activeBatch));
            HasControlData(u.records) && Resting(u, hi) && Evolves(s.records, u.records)
  {
    CompiledIsStructured(s);
    CloseLoopsOk(s.records, lo, hi);
    var u := s.(activeBatch := None, records := CloseLoops(s.records, s.activeBatch));
    CompiledKept(s, u);
    CompiledIsStructured(u);
  }

  /** A barrier with a failed or waiting child pauses on it. */
  lemma SettlePaused(s: EngineState, lo: nat, hi: nat)
    requires Sound(s) && FrontierAt(s, lo, hi) && HasControlData(s.records) && SettleBatch(s).Success?
    requires !Members(s.records, lo, hi, {Completed})
    ensures Inv(SettleBatch(s).value) && SettleBatch(s).value.records == s.records
  {
    var rs := s.records;
    var blocked := FirstIn(rs, s.activeBatch, Blocked, 0);
    var human := FirstIn(rs, s.activeBatch, Waiting, 0);
    assert blocked < |rs| ==> lo <= blocked < hi;
    assert human < |rs| ==> lo <= human < hi;
    PauseBatch(s, SettleBatch(s).value, lo, hi);
  }

  /** A barrier whose children all completed closes loops and advances. */
  lemma SettlePassed(s: EngineState, lo: nat, hi: nat)
    requires Sound(s) && FrontierAt(s, lo, hi) && s.status == StateRunning && HasControlData(s.records)
    requires Members(s.records, lo, hi, {Completed})
    ensures SettleBatch(s).Success?
    ensures Inv(SettleBatch(s).value) && Evolves(s.records, SettleBatch(s).value.records)
  {
    var u := s.(activeBatch := None, records := CloseLoops(s.records, s.activeBatch));
    BarrierPassed(s, lo, hi);
    AdvanceKeeps(u, hi);
    EvolvesTrans(s.records, u.records, Advance(u).records);
    SettleIsAdvance(s, lo, hi);
    if Advance(u).mode == Some(Semi) && Advance(u).status == StateReady {
      SemiKeeps(Advance(u));
    }
  }

  lemma SettleIsAdvance(s: EngineState, lo: nat, hi: nat)
    requires lo < |s.records| && Frontier(s.records, lo, hi) && HasControlData(s.records)
    requires s.status == StateRunning && s.activeBatch == Some(s.records[lo].batch)
    requires Members(s.records, lo, hi, {Completed})
    ensures var u := s.(activeBatch := None, records := CloseLoops(s.records, s.activeBatch));
            HasControlData(u.records)
            && SettleBatch(s) == Success(
                 if Advance(u).mode == Some(Semi) && Advance(u).status == StateReady
                 then Paused(Advance(u), SemiPause, ReviewBatch) else Advance(u))
  {
    SameTopologyControl(s.records, CloseLoops(s.records, s.activeBatch));
    assert FirstIn(s.records, s.activeBatch, Blocked, 0) == |s.records|;
    assert FirstIn(s.records, s.activeBatch, Waiting, 0) == |s.records|;
  }

  lemma SettleKeeps(s: EngineState)
    requires Inv(s) && HasControlData(s.records) && SettleBatch(s).Success?
    ensures Inv(SettleBatch(s).value) && Evolves(s.records, SettleBatch(s).value.records)
  {
    var lo, hi := Located(s);
    if Members(s.records, lo, hi, {Completed}) {
      SettlePassed(s, lo, hi);
    } else {
      SettlePaused(s, lo, hi);
    }
  }

  // ---- answerCheckpoint ----

  lemma ModeChosen(s: EngineState, mode: Mode)
    requires Inv(s) && HasControlData(s.records) && s.status == StateWaiting && PausedFor(s, ModePause)
    ensures Inv(Advance(s.(mode := Some(mode)))) && Evolves(s.records, Advance(s.(mode := Some(mode))).records)
            && NoNewSkips(s.records, Advance(s.(mode := Some(mode))).records)
  {
    var lo, hi := Located(s);
    AdvanceKeeps(s.(mode := Some(mode)), 0);
  }

  lemma AnsweredOk(rs: seq<Record>, lo: nat, hi: nat, answer: string)
    requires Structured(rs) && AllLocal(rs) && Uniform(rs) && Witnessed(rs) && lo < |rs| && Frontier(rs, lo, hi)
    requires rs[lo].kind == Human && rs[lo].status == Waiting && !IsBlank(answer)
    ensures var c := rs[lo := rs[lo].(status := Completed, answer := Some(answer))];
            && SameTopology(rs, c) && AllLocal(c) && Uniform(c) && Witnessed(c) && Evolves(rs, c) && NoNewSkips(rs, c)
            && hi == lo + 1 && DoneBefore(c, hi) && OpenFrom(c, hi)
  {
    var r := rs[lo].(status := Completed, answer := Some(answer));
    var c := rs[lo := r];
    AnsweredRecord(rs[lo], r, answer);
    UpdateEvolves(rs, lo, r);
    UpdateLocal(rs, lo, r);
    UpdateUniform(rs, lo, r);
    WitnessedKept(rs, c);
    if hi > lo + 1 {
      SameBatch(rs, lo, lo + 1);
    }
  }

  lemma AnsweredRecord(a: Record, r: Record, answer: string)
    requires LocalOk(a) && a.kind == Human && a.status == Waiting && !IsBlank(answer)
    requires r == a.(status := Completed, answer := Some(answer))
    ensures LocalOk(r) && Topology(r) == Topology(a) && r.batch == a.batch
  {
  }

  /** The waiting checkpoint is the frontier. */
  lemma HumanPlace(s: EngineState) returns (lo: nat, hi: nat)
    requires Inv(s) && s.status == StateWaiting && PausedFor(s, HumanPause)
    ensures Structured(s.records) && HasControlData(s.records)
    ensures lo < |s.records| && FrontierAt(s, lo, hi) && FirstWaitingHuman(s.records, 0) == lo
    ensures s.records[lo].kind == Human && s.records[lo].status == Waiting
  {
    CompiledIsStructured(s);
    lo, hi := Located(s);
    assert DoneBefore(s.records, lo);
  }

  lemma HumanAnswered(s: EngineState, answer: string)
    requires Inv(s) && HasControlData(s.records) && s.status == StateWaiting && PausedFor(s, HumanPause)
    requires !IsBlank(answer)
    ensures AnswerCheckpoint(s, answer).Success?
    ensures Inv(AnswerCheckpoint(s, answer).value)
            && Evolves(s.records, AnswerCheckpoint(s, answer).value.records)
            && NoNewSkips(s.records, AnswerCheckpoint(s, answer).value.records)
  {
    var lo, hi := HumanPlace(s);
    AnsweredOk(s.records, lo, hi, answer);
    var u := s.(records := s.records[lo := s.records[lo].(status := Completed, answer := Some(answer))]);
    CompiledKept(s, u);
    AnsweredControl(s.records, lo, answer);
    assert s.records[lo].status != Pending;
    AdvanceKeeps(u, hi);
    EvolvesTrans(s.records, u.records, Advance(u).records);
  }

  lemma OpenFromReady(rs: seq<Record>, lo: nat, hi: nat)
    requires lo < |rs| && Frontier(rs, lo, hi) && Uniform(rs) && rs[lo].status == Pending
    ensures OpenFrom(rs, lo)
  {
    forall i | lo <= i < |rs|
      ensures rs[i].status == Pending || rs[i].status == Skipped
    {
      assert i < hi ==> rs[i].batch == rs[lo].batch;
    }
  }

  lemma SemiAnswered(s: EngineState)
    requires Inv(s) && HasControlData(s.records) && s.status == StateWaiting && PausedFor(s, SemiPause)
    ensures Inv(Advance(s)) && Evolves(s.records, Advance(s).records)
            && NoNewSkips(s.records, Advance(s).records)
  {
    var lo, hi := Located(s);
    OpenFromReady(s.records, lo, hi);
    AdvanceKeeps(s, lo);
  }

  lemma AnswerKeeps(s: EngineState, answer: string)
    requires Inv(s) && HasControlData(s.records) && AnswerCheckpoint(s, answer).Success?
    ensures Inv(AnswerCheckpoint(s, answer).value)
            && Evolves(s.records, AnswerCheckpoint(s, answer).value.records)
            && NoNewSkips(s.records, AnswerCheckpoint(s, answer).value.records)
  {
    match s.pause.value.kind
    case ModePause => ModeChosen(s, if Lower(Trim(answer)) == "semi" then Semi else Auto);
    case HumanPause => HumanAnswered(s, answer);
    case _ => SemiAnswered(s);
  }

  // ---- interruptEngine ----

  lemma InterruptRecordsOk(rs: seq<Record>, lo: nat, hi: nat)
    requires Structured(rs) && AllLocal(rs) && Uniform(rs) && Witnessed(rs) && Frontier(rs, lo, hi)
    ensures var c := InterruptRecords(rs);
            SameTopology(rs, c) && AllLocal(c) && Uniform(c) && Witnessed(c) && Evolves(rs, c) && NoNewSkips(rs, c)
            && Frontier(c, lo, hi)
  {
    var c := InterruptRecords(rs);
    forall i | 0 <= i < |rs|
      ensures Topology(rs[i]) == Topology(c[i]) && LocalOk(c[i])
    {
      assert LocalOk(rs[i]);
    }
    SameFields(rs, c);
    WitnessedKept(rs, c);
    forall i, j | 0 <= i < |c| && 0 <= j < |c| && c[i].batch == c[j].batch && c[i].status == Pending
      ensures c[j].status == Pending
    {
      assert rs[i].status == Pending && rs[j].status == Pending;
    }
  }

  lemma InterruptKeeps(s: EngineState, message: string)
    requires Inv(s)
    ensures Inv(InterruptEngine(s, message)) && Evolves(s.records, InterruptEngine(s, message).records)
            && NoNewSkips(s.records, InterruptEngine(s, message).records)
  {
    CompiledIsStructured(s);
    var lo, hi := Located(s);
    InterruptRecordsOk(s.records, lo, hi);
    var t := InterruptEngine(s, message);
    InterruptedMembers(s, t, lo, hi);
    assert StatusOk(t, lo, hi);
    Assemble(s, t, lo, hi);
  }

  lemma InterruptedMembers(s: EngineState, t: EngineState, lo: nat, hi: nat)
    requires Structured(s.records) && Uniform(s.records) && ModeOk(s)
    requires FrontierAt(s, lo, hi) && t.records == InterruptRecords(s.records)
    ensures Members(t.records, lo, hi, {Pending, Completed, Waiting, Blocked, Interrupted})
  {
    forall i | lo <= i < hi
      ensures t.records[i].status in {Pending, Completed, Waiting, Blocked, Interrupted}
    {
      MemberNotSkipped(s, lo, hi, i);
    }
  }

  /** The frontier batch itself is never skipped. */
  lemma MemberNotSkipped(s: EngineState, lo: nat, hi: nat, i: nat)
    requires Structured(s.records) && Uniform(s.records) && ModeOk(s)
    requires FrontierAt(s, lo, hi) && lo <= i < hi
    ensures s.records[i].status != Skipped
  {
    SameBatch(s.records, i, lo);
    assert s.records[lo].status == Pending ==> s.records[i].status == Pending;
  }
}
