/** Exactly when paused work can go on, and what is put back to work. */
module Continuing {
  import opened Wrappers
  import opened Text
  import opened Workflows
  import opened Records
  import opened Compile
  import opened Engine
  import opened EngineInvariant
  import opened EngineSteps
  import opened EngineTransitions
  import opened EngineCheckpoints
  import opened Continuations

  predicate SomeRecord(rs: seq<Record>, status: RecordStatus) {
    exists i :: 0 <= i < |rs| && rs[i].status == status
  }

  predicate EndBlocked(rs: seq<Record>) {
    exists i :: 0 <= i < |rs| && rs[i].kind == LoopEnd && rs[i].status == Blocked
  }

  /** Exactly the records of this status run again, without their last attempt; everything else is as it was. */
  predicate Resumed(s: EngineState, t: EngineState, status: RecordStatus) {
    && t.status == StateRunning && t.pause.None?
    && t.mode == s.mode && t.workflow == s.workflow && t.command == s.command
    && RunAgain(s.records, t.records, status)
    && forall i :: 0 <= i < |s.records| && s.records[i].status == status ==> InBatch(s.records[i], t.activeBatch)
  }

  predicate RunAgain(a: seq<Record>, b: seq<Record>, status: RecordStatus) {
    && |a| == |b|
    && forall i :: 0 <= i < |a| ==>
         b[i] == if a[i].status == status then a[i].(status := Running, outcome := None, error := None) else a[i]
  }

  // ---- How paused states look ----

  lemma InterruptedAt(s: EngineState) returns (lo: nat, hi: nat)
    requires Inv(s) && s.status == StateInterrupted
    ensures Structured(s.records) && AllLocal(s.records) && Uniform(s.records) && Frontier(s.records, lo, hi)
    ensures Members(s.records, lo, hi, {Pending, Completed, Waiting, Blocked, Interrupted})
    ensures PausedFor(s, InterruptedPause)
  {
    CompiledIsStructured(s);
    lo, hi := Located(s);
  }

  lemma ReportedAt(s: EngineState) returns (lo: nat, hi: nat)
    requires Inv(s) && s.status == StateWaiting && PausedFor(s, ReportPause)
    ensures Structured(s.records) && AllLocal(s.records) && lo < |s.records| && Frontier(s.records, lo, hi)
    ensures s.records[lo].kind == Agent && Members(s.records, lo, hi, {Completed, Waiting})
    ensures SomeRecord(s.records, Waiting)
  {
    CompiledIsStructured(s);
    lo, hi := Located(s);
  }

  lemma BlockedAt(s: EngineState) returns (lo: nat, hi: nat)
    requires Inv(s) && s.status == StateBlocked
    ensures PausedFor(s, FailurePause) && Structured(s.records) && AllLocal(s.records)
    ensures lo < |s.records| && Frontier(s.records, lo, hi)
    ensures || (&& s.records[lo].kind == Agent && Members(s.records, lo, hi, {Completed, Waiting, Blocked})
                && SomeMember(s.records, lo, hi, Blocked))
            || (s.records[lo].kind == LoopEnd && s.records[lo].status == Blocked)
  {
    CompiledIsStructured(s);
    lo, hi := Located(s);
  }

  lemma Unobstructed(rs: seq<Record>, lo: nat, hi: nat, status: RecordStatus)
    requires Structured(rs) && AllLocal(rs) && lo < |rs| && Frontier(rs, lo, hi) && rs[lo].kind == Agent
    requires status in {Interrupted, Waiting, Blocked}
    requires Members(rs, lo, hi, if status == Blocked then {Completed, Waiting, Blocked} else {Completed, status})
    requires SomeRecord(rs, status)
    ensures CheckResumable(rs, status).Success?
  {
    var some :| 0 <= some < |rs| && rs[some].status == status;
    assert lo <= some < hi;
    SameBatch(rs, some, lo);
    var first := FirstAgentWith(rs, status, 0);
    assert lo <= first < hi;
    forall i | 0 <= i < |rs| ensures !Obstructs(rs, i, first, status) {
      NotInTheWay(rs, lo, hi, first, i, status);
    }
  }

  lemma NotInTheWay(rs: seq<Record>, lo: nat, hi: nat, first: nat, i: nat, status: RecordStatus)
    requires Structured(rs) && AllLocal(rs) && lo < |rs| && Frontier(rs, lo, hi) && rs[lo].kind == Agent
    requires Members(rs, lo, hi, if status == Blocked then {Completed, Waiting, Blocked} else {Completed, status})
    requires lo <= first < hi && i < |rs|
    ensures !Obstructs(rs, i, first, status)
  {
    assert LocalOk(rs[i]);
    if lo <= i < hi {
      SameBatch(rs, i, lo);
    }
  }

  lemma NoAgent(rs: seq<Record>, status: RecordStatus)
    requires forall i :: 0 <= i < |rs| && rs[i].kind == Agent ==> rs[i].status != status
    ensures CheckResumable(rs, status).Failure?
  {
  }

  lemma RestartedIs(s: EngineState, status: RecordStatus, forget: bool, t: EngineState)
    requires CheckResumable(s.records, status).Success? && FirstWith(s.records, status, 0) < |s.records|
    requires status == Waiting ==>
               forall i :: 0 <= i < |s.records| && s.records[i].status == status ==>
                 && s.records[i].outcome.Some? && s.records[i].outcome.value.status == NeedsHuman
                 && s.records[i].error.None?
    requires t == s.(records := Rerun(s.records, status, forget), status := StateRunning,
                     activeBatch := Some(s.records[FirstWith(s.records, status, 0)].batch), pause := None)
    requires ParseEngineState(t) == Success(t)
    ensures Restarted(s, status, forget) == Success(t)
  {
  }

  /** The state a continuation goes to is lawful. */
  lemma GoesTo(s: EngineState, status: RecordStatus, forget: bool) returns (t: EngineState)
    requires Inv(s) && Continues(s, status, forget) && CheckResumable(s.records, status).Success?
    ensures Inv(t) && FirstWith(s.records, status, 0) < |s.records|
    ensures t == s.(records := Rerun(s.records, status, forget), status := StateRunning,
                    activeBatch := Some(s.records[FirstWith(s.records, status, 0)].batch), pause := None)
    ensures forall i :: 0 <= i < |s.records| && s.records[i].status == status ==>
              s.records[i].kind == Agent && InBatch(s.records[i], t.activeBatch)
  {
    CompiledIsStructured(s);
    var lo, hi := Located(s);
    RerunMembers(s, lo, hi, status, forget);
    RerunOk(s.records, lo, hi, status, forget);
    var k := FirstWith(s.records, status, 0);
    ShareBatch(s.records, lo, hi, status);
    t := s.(records := Rerun(s.records, status, forget), status := StateRunning,
            activeBatch := Some(s.records[k].batch), pause := None);
    RerunLawful(s, t, lo, hi, status, forget, k);
    Assemble(s, t, lo, hi);
  }

  lemma ShareBatch(rs: seq<Record>, lo: nat, hi: nat, status: RecordStatus)
    requires lo < |rs| && IsBatch(rs, lo, hi) && CheckResumable(rs, status).Success?
    requires forall i :: 0 <= i < |rs| && rs[i].status == status ==> lo <= i < hi && rs[i].kind == Agent
    ensures var k := FirstWith(rs, status, 0);
            lo <= k < hi && forall i :: 0 <= i < |rs| && rs[i].status == status ==> rs[i].batch == rs[k].batch
  {
    assert FirstAgentWith(rs, status, 0) < |rs|;
  }

  /** What a continuation that is let through does. */
  lemma Goes(s: EngineState, status: RecordStatus, forget: bool)
    requires Inv(s) && Continues(s, status, forget) && CheckResumable(s.records, status).Success?
    requires forget || status == Interrupted
    ensures Restarted(s, status, forget).Success? && Inv(Restarted(s, status, forget).value)
    ensures Resumed(s, Restarted(s, status, forget).value, status)
  {
    var t := GoesTo(s, status, forget);
    ParseAccepts(t);
    Gone(s, status, forget, t);
  }

  lemma Gone(s: EngineState, status: RecordStatus, forget: bool, t: EngineState)
    requires CheckResumable(s.records, status).Success? && FirstWith(s.records, status, 0) < |s.records|
    requires AllLocal(s.records) && (forget || status == Interrupted)
    requires t == s.(records := Rerun(s.records, status, forget), status := StateRunning,
                     activeBatch := Some(s.records[FirstWith(s.records, status, 0)].batch), pause := None)
    requires forall i :: 0 <= i < |s.records| && s.records[i].status == status ==>
               s.records[i].kind == Agent && InBatch(s.records[i], t.activeBatch)
    requires ParseEngineState(t) == Success(t)
    ensures Restarted(s, status, forget) == Success(t) && Resumed(s, t, status)
  {
    AllAsk(s.records, status);
    RestartedIs(s, status, forget, t);
    RerunIs(s.records, status, forget);
  }

  /** A continuation asked for at the right pause is a restart of the checked state. */
  lemma ResumeIs(s: EngineState, status: EngineStatus, kind: PauseKind, record: RecordStatus, forget: bool)
    requires ParseEngineState(s) == Success(s)
    ensures Resume(s, status, kind, record, forget)
         == if s.status != status || !PausedFor(s, kind) then Failure(NotPausedHere) else Restarted(s, record, forget)
  {
  }

  lemma Refused(s: EngineState, status: RecordStatus, forget: bool)
    requires CheckResumable(s.records, status).Failure?
    ensures Restarted(s, status, forget).Failure?
  {
  }

  lemma AllAsk(rs: seq<Record>, status: RecordStatus)
    requires AllLocal(rs) && forall i :: 0 <= i < |rs| && rs[i].status == status ==> rs[i].kind == Agent
    ensures status == Waiting ==>
              forall i :: 0 <= i < |rs| && rs[i].status == status ==>
                rs[i].outcome.Some? && rs[i].outcome.value.status == NeedsHuman && rs[i].error.None?
  {
    forall i | 0 <= i < |rs| && rs[i].status == status && status == Waiting
      ensures rs[i].outcome.Some? && rs[i].outcome.value.status == NeedsHuman && rs[i].error.None?
    {
      assert LocalOk(rs[i]);
    }
  }

  lemma RerunIs(rs: seq<Record>, status: RecordStatus, forget: bool)
    requires AllLocal(rs) && (forget || status == Interrupted)
    ensures RunAgain(rs, Rerun(rs, status, forget), status)
  {
    forall i | 0 <= i < |rs|
      ensures Rerun(rs, status, forget)[i]
           == if rs[i].status == status then rs[i].(status := Running, outcome := None, error := None) else rs[i]
    {
      assert LocalOk(rs[i]);
    }
  }

  // ---- The three continuations ----

  /** Interrupted work resumes exactly if some child was interrupted and no sibling failed or asks. */
  lemma InterruptedExact(s: EngineState)
    requires Inv(s) && s.status == StateInterrupted
    ensures ResumeInterruptedBatch(s).Success?
       <==> SomeRecord(s.records, Interrupted) && !SomeRecord(s.records, Waiting) && !SomeRecord(s.records, Blocked)
    ensures ResumeInterruptedBatch(s).Success? ==>
              Inv(ResumeInterruptedBatch(s).value) && Resumed(s, ResumeInterruptedBatch(s).value, Interrupted)
  {
    ParseAccepts(s);
    ResumeIs(s, StateInterrupted, InterruptedPause, Interrupted, false);
    var lo, hi := InterruptedAt(s);
    InterruptedChecked(s);
    if CheckResumable(s.records, Interrupted).Success? {
      Goes(s, Interrupted, false);
    } else {
      Refused(s, Interrupted, false);
    }
  }

  lemma InterruptedChecked(s: EngineState)
    requires Inv(s) && s.status == StateInterrupted
    ensures CheckResumable(s.records, Interrupted).Success?
       <==> SomeRecord(s.records, Interrupted) && !SomeRecord(s.records, Waiting) && !SomeRecord(s.records, Blocked)
  {
    var lo, hi := InterruptedAt(s);
    if SomeRecord(s.records, Interrupted) {
      InterruptedMembersAre(s.records, lo, hi);
      if !SomeRecord(s.records, Waiting) && !SomeRecord(s.records, Blocked) {
        OnlyInterrupted(s.records, lo, hi);
        Unobstructed(s.records, lo, hi, Interrupted);
      } else {
        Obstructed(s.records, lo, hi);
      }
    }
  }

  lemma OnlyInterrupted(rs: seq<Record>, lo: nat, hi: nat)
    requires hi <= |rs| && Members(rs, lo, hi, {Completed, Waiting, Blocked, Interrupted})
    requires !SomeRecord(rs, Waiting) && !SomeRecord(rs, Blocked)
    ensures Members(rs, lo, hi, {Completed, Interrupted})
  {
  }

  lemma InterruptedMembersAre(rs: seq<Record>, lo: nat, hi: nat)
    requires Structured(rs) && AllLocal(rs) && Uniform(rs) && Frontier(rs, lo, hi)
    requires Members(rs, lo, hi, {Pending, Completed, Waiting, Blocked, Interrupted}) && SomeRecord(rs, Interrupted)
    ensures lo < |rs| && rs[lo].kind == Agent && Members(rs, lo, hi, {Completed, Waiting, Blocked, Interrupted})
    ensures forall i :: 0 <= i < |rs| && rs[i].status in {Waiting, Blocked, Interrupted} ==> lo <= i < hi
  {
    var k :| 0 <= k < |rs| && rs[k].status == Interrupted;
    assert LocalOk(rs[k]) && lo <= k < hi;
    SameBatch(rs, k, lo);
    forall i | lo <= i < hi ensures rs[i].status in {Completed, Waiting, Blocked, Interrupted} {
      assert rs[i].batch == rs[k].batch;
    }
  }

  lemma Obstructed(rs: seq<Record>, lo: nat, hi: nat)
    requires lo < |rs| && Frontier(rs, lo, hi)
    requires forall i :: 0 <= i < |rs| && rs[i].status in {Waiting, Blocked, Interrupted} ==> lo <= i < hi
    requires SomeRecord(rs, Waiting) || SomeRecord(rs, Blocked)
    ensures CheckResumable(rs, Interrupted).Failure?
  {
    var first := FirstAgentWith(rs, Interrupted, 0);
    if first < |rs| {
      var i :| 0 <= i < |rs| && rs[i].status in {Waiting, Blocked};
      assert lo <= i < hi && lo <= first < hi;
      assert Obstructs(rs, i, first, Interrupted);
    }
  }

  /** A batch paused on questions always resumes. */
  lemma ReportedExact(s: EngineState)
    requires Inv(s) && s.status == StateWaiting
    ensures ResumeReportedBatch(s).Success? <==> PausedFor(s, ReportPause)
    ensures ResumeReportedBatch(s).Success? ==>
              Inv(ResumeReportedBatch(s).value) && Resumed(s, ResumeReportedBatch(s).value, Waiting)
  {
    ParseAccepts(s);
    ResumeIs(s, StateWaiting, ReportPause, Waiting, true);
    if PausedFor(s, ReportPause) {
      ReportedChecked(s);
      Goes(s, Waiting, true);
    }
  }

  lemma ReportedChecked(s: EngineState)
    requires Inv(s) && s.status == StateWaiting && PausedFor(s, ReportPause)
    ensures CheckResumable(s.records, Waiting).Success?
  {
    var lo, hi := ReportedAt(s);
    Unobstructed(s.records, lo, hi, Waiting);
  }

  /** A failed batch always restarts; only the end of an exhausted loop does not. */
  lemma BlockedExact(s: EngineState)
    requires Inv(s) && s.status == StateBlocked
    ensures RestartBlockedBatch(s).Success? <==> !EndBlocked(s.records)
    ensures RestartBlockedBatch(s).Success? ==>
              Inv(RestartBlockedBatch(s).value) && Resumed(s, RestartBlockedBatch(s).value, Blocked)
  {
    ParseAccepts(s);
    ResumeIs(s, StateBlocked, FailurePause, Blocked, true);
    var lo, hi := BlockedAt(s);
    BlockedChecked(s);
    if !EndBlocked(s.records) {
      Goes(s, Blocked, true);
    } else {
      Refused(s, Blocked, true);
    }
  }

  lemma BlockedChecked(s: EngineState)
    requires Inv(s) && s.status == StateBlocked
    ensures CheckResumable(s.records, Blocked).Success? <==> !EndBlocked(s.records)
  {
    var lo, hi := BlockedAt(s);
    if s.records[lo].kind == Agent {
      Unobstructed(s.records, lo, hi, Blocked);
    } else {
      NoAgent(s.records, Blocked) by {
        BlockedKinds(s.records, lo, hi);
      }
    }
    BlockedKinds(s.records, lo, hi);
  }

  /** Only the frontier batch holds blocked records, and its members are all of one kind. */
  lemma BlockedKinds(rs: seq<Record>, lo: nat, hi: nat)
    requires Structured(rs) && lo < |rs| && Frontier(rs, lo, hi)
    ensures forall k :: 0 <= k < |rs| && rs[k].status == Blocked ==> rs[k].kind == rs[lo].kind
  {
    forall k | 0 <= k < |rs| && rs[k].status == Blocked ensures rs[k].kind == rs[lo].kind {
      assert lo <= k < hi;
      SameBatch(rs, k, lo);
    }
  }

  // ---- Interrupting and resuming ----

  lemma InterruptIs(s: EngineState, message: string)
    requires Inv(s)
    ensures var t := InterruptEngine(s, message);
            && Inv(t) && t.status == StateInterrupted && t.pause == Some(Pause(InterruptedPause, message))
            && t.activeBatch.None? && t.mode == s.mode && t.workflow == s.workflow && t.command == s.command
            && |t.records| == |s.records|
            && forall i :: 0 <= i < |s.records| ==>
                 t.records[i]
                 == if s.records[i].status == Running then s.records[i].(status := Interrupted) else s.records[i]
  {
    InterruptKeeps(s, message);
  }

  /** Resuming undoes an interruption of running work, unless a sibling had failed or asked by then. */
  lemma ResumeUndoesInterrupt(s: EngineState, message: string)
    requires Inv(s) && s.status == StateRunning && SomeRecord(s.records, Running)
    ensures ResumeInterruptedBatch(InterruptEngine(s, message)) == Success(s)
       <==> !SomeRecord(s.records, Waiting) && !SomeRecord(s.records, Blocked)
    ensures SomeRecord(s.records, Waiting) || SomeRecord(s.records, Blocked) ==>
              ResumeInterruptedBatch(InterruptEngine(s, message)).Failure?
  {
    var t := InterruptEngine(s, message);
    InterruptIs(s, message);
    InterruptedExact(t);
    StatusesKept(s, t);
    if ResumeInterruptedBatch(t).Success? {
      var lo, hi := RunningAt(s);
      Undone(s, t, ResumeInterruptedBatch(t).value, lo, hi);
    }
  }

  lemma StatusesKept(s: EngineState, t: EngineState)
    requires |t.records| == |s.records| && SomeRecord(s.records, Running)
    requires forall i :: 0 <= i < |s.records| ==>
               t.records[i]
               == if s.records[i].status == Running then s.records[i].(status := Interrupted) else s.records[i]
    ensures SomeRecord(t.records, Interrupted)
    ensures SomeRecord(t.records, Waiting) <==> SomeRecord(s.records, Waiting)
    ensures SomeRecord(t.records, Blocked) <==> SomeRecord(s.records, Blocked)
  {
    var i :| 0 <= i < |s.records| && s.records[i].status == Running;
    assert t.records[i].status == Interrupted;
    forall k | 0 <= k < |s.records|
      ensures t.records[k].status == Waiting <==> s.records[k].status == Waiting
      ensures t.records[k].status == Blocked <==> s.records[k].status == Blocked
    {
    }
  }

  lemma RunningAt(s: EngineState) returns (lo: nat, hi: nat)
    requires Inv(s) && s.status == StateRunning
    ensures Structured(s.records) && lo < |s.records| && Frontier(s.records, lo, hi)
    ensures s.pause.None? && s.activeBatch == Some(s.records[lo].batch)
    ensures Members(s.records, lo, hi, {Running, Completed, Waiting, Blocked}) && AllLocal(s.records)
  {
    CompiledIsStructured(s);
    lo, hi := Located(s);
  }

  lemma Undone(s: EngineState, t: EngineState, u: EngineState, lo: nat, hi: nat)
    requires s.status == StateRunning && s.pause.None? && SomeRecord(s.records, Running)
    requires lo < |s.records| && s.activeBatch == Some(s.records[lo].batch) && Frontier(s.records, lo, hi)
    requires AllLocal(s.records) && Members(s.records, lo, hi, {Running, Completed, Waiting, Blocked})
    requires t.workflow == s.workflow && t.command == s.command && t.mode == s.mode
    requires Resumed(t, u, Interrupted) && |t.records| == |s.records|
    requires forall i :: 0 <= i < |s.records| ==>
               t.records[i]
               == if s.records[i].status == Running then s.records[i].(status := Interrupted) else s.records[i]
    ensures u == s
  {
    RecordsUndone(s.records, t.records, u.records, lo, hi);
    SameActive(s.records, t.records, u.activeBatch, lo, hi);
  }

  lemma SameActive(a: seq<Record>, b: seq<Record>, active: Option<string>, lo: nat, hi: nat)
    requires SomeRecord(a, Running) && |a| == |b| && lo < |a| && Frontier(a, lo, hi)
    requires forall i :: 0 <= i < |a| ==> b[i] == if a[i].status == Running then a[i].(status := Interrupted) else a[i]
    requires forall i :: 0 <= i < |b| && b[i].status == Interrupted ==> InBatch(b[i], active)
    ensures active == Some(a[lo].batch)
  {
    var k :| 0 <= k < |a| && a[k].status == Running;
    assert b[k].status == Interrupted && lo <= k < hi;
  }

  lemma RecordsUndone(a: seq<Record>, b: seq<Record>, c: seq<Record>, lo: nat, hi: nat)
    requires AllLocal(a) && Frontier(a, lo, hi) && Members(a, lo, hi, {Running, Completed, Waiting, Blocked})
    requires |a| == |b| == |c|
    requires forall i :: 0 <= i < |a| ==> b[i] == if a[i].status == Running then a[i].(status := Interrupted) else a[i]
    requires forall i :: 0 <= i < |a| ==>
               c[i] == if b[i].status == Interrupted then b[i].(status := Running, outcome := None, error := None)
                       else b[i]
    ensures c == a
  {
    forall i | 0 <= i < |a| ensures c[i] == a[i] {
      assert LocalOk(a[i]);
      assert a[i].status != Interrupted;
    }
  }

  // ---- validateContinuations ----

  /** The record may be continued later. */
  predicate Stopped(rs: seq<Record>, id: string) {
    exists k :: 0 <= k < |rs| && rs[k].id == id && rs[k].kind == Agent
                && (rs[k].status == Interrupted || rs[k].status == Blocked || rs[k].status == Waiting)
  }

  /** Conversations accompany a lawful state exactly if each belongs to a child that stopped, and no child has two. */
  lemma RowsBelong(s: EngineState, rows: seq<Row>, orchestrated: bool)
    requires Inv(s)
    ensures ValidContinuations(Some(s), rows, orchestrated)
       <==> && (forall i, j :: 0 <= i < j < |rows| ==> rows[i].recordId != rows[j].recordId)
            && (rows != [] ==> orchestrated && s.status in {StateWaiting, StateBlocked, StateInterrupted})
            && (forall i :: 0 <= i < |rows| ==> Stopped(s.records, rows[i].recordId))
  {
    forall i | 0 <= i < |rows|
      ensures HasRetainable(s.records, rows[i].recordId) <==> Stopped(s.records, rows[i].recordId)
    {
      StoppedExactly(s.records, rows[i].recordId);
    }
    ValidIs(s, rows, orchestrated);
  }

  lemma ValidIs(s: EngineState, rows: seq<Row>, orchestrated: bool)
    ensures ValidContinuations(Some(s), rows, orchestrated)
       <==> && DistinctRows(rows)
            && (rows != [] ==> orchestrated && s.status in {StateWaiting, StateBlocked, StateInterrupted})
            && (forall i :: 0 <= i < |rows| ==> HasRetainable(s.records, rows[i].recordId))
  {
    var engine := Some(s);
    assert PausedEngine(engine) <==> s.status in {StateWaiting, StateBlocked, StateInterrupted};
    if ValidContinuations(engine, rows, orchestrated) {
      forall i | 0 <= i < |rows|
        ensures orchestrated && PausedEngine(engine) && HasRetainable(s.records, rows[i].recordId)
      {
        assert HasRetainable(engine.value.records, rows[i].recordId);
      }
      assert rows != [] ==> HasRetainable(s.records, rows[0].recordId);
    }
    if (forall i :: 0 <= i < |rows| ==> HasRetainable(s.records, rows[i].recordId)) {
      forall i | 0 <= i < |rows| ensures HasRetainable(engine.value.records, rows[i].recordId) {
        assert HasRetainable(s.records, rows[i].recordId);
      }
    }
  }

  lemma StoppedExactly(rs: seq<Record>, id: string)
    requires AllLocal(rs)
    ensures HasRetainable(rs, id) <==> Stopped(rs, id)
  {
    forall k | 0 <= k < |rs|
      ensures Retainable(rs[k])
         <==> rs[k].kind == Agent
              && (rs[k].status == Interrupted || rs[k].status == Blocked || rs[k].status == Waiting)
    {
      assert LocalOk(rs[k]);
    }
  }

  // ---- canResumeWorkflow ----

  predicate HasRow(rows: seq<Row>, id: string) {
    exists i :: 0 <= i < |rows| && rows[i].recordId == id
  }

  /** Each record of this status has a retained conversation. */
  predicate AllRetained(rs: seq<Record>, rows: seq<Row>, status: RecordStatus) {
    forall k :: 0 <= k < |rs| && rs[k].status == status ==> HasRow(rows, rs[k].id)
  }

  /**
   * Which paused work can be continued: failed batches, unless a loop was exhausted, with or without conversations;
   * questions whose askers' conversations were all kept; and interrupted batches without failures or questions whose
   * interrupted conversations were all kept.
   */
  lemma CanResumeExact(s: EngineState, rows: seq<Row>)
    requires Inv(s)
    ensures CanResume(Some(s), rows)
       <==> || (s.status == StateBlocked && !EndBlocked(s.records))
            || (s.status == StateWaiting && PausedFor(s, ReportPause) && AllRetained(s.records, rows, Waiting))
            || (&& s.status == StateInterrupted && SomeRecord(s.records, Interrupted)
                && !SomeRecord(s.records, Waiting) && !SomeRecord(s.records, Blocked)
                && AllRetained(s.records, rows, Interrupted))
  {
    match s.status
    case StateBlocked =>
      BlockedExact(s);
      CanResumeIs(s, rows);
    case StateWaiting => CanResumeReported(s, rows);
    case StateInterrupted => CanResumeInterrupted(s, rows);
    case _ =>
  }

  lemma CanResumeReported(s: EngineState, rows: seq<Row>)
    requires Inv(s) && s.status == StateWaiting
    ensures CanResume(Some(s), rows) <==> PausedFor(s, ReportPause) && AllRetained(s.records, rows, Waiting)
  {
    ReportedExact(s);
    CanResumeIs(s, rows);
    if ResumeReportedBatch(s).Success? {
      RetainedSame(s, ResumeReportedBatch(s).value, rows, Waiting);
    }
  }

  lemma CanResumeIs(s: EngineState, rows: seq<Row>)
    ensures CanResume(Some(s), rows)
       <==> && ResumeWorkflow(s).Success?
            && (|| s.status == StateBlocked
                || ((s.status == StateInterrupted || (s.status == StateWaiting && PausedFor(s, ReportPause)))
                    && AllRetained(ResumeWorkflow(s).value.records, rows, Running)))
  {
    if ResumeWorkflow(s).Success? {
      RetainedRows(ResumeWorkflow(s).value.records, rows);
    }
  }

  lemma RetainedRows(rs: seq<Record>, rows: seq<Row>)
    ensures AllRetained(rs, rows, Running)
       <==> forall k :: 0 <= k < |rs| && rs[k].status == Running ==>
              exists i :: 0 <= i < |rows| && rows[i].recordId == rs[k].id
  {
  }

  lemma CanResumeInterrupted(s: EngineState, rows: seq<Row>)
    requires Inv(s) && s.status == StateInterrupted
    ensures CanResume(Some(s), rows)
       <==> && SomeRecord(s.records, Interrupted) && !SomeRecord(s.records, Waiting) && !SomeRecord(s.records, Blocked)
            && AllRetained(s.records, rows, Interrupted)
  {
    InterruptedExact(s);
    CanResumeIs(s, rows);
    if ResumeInterruptedBatch(s).Success? {
      RetainedSame(s, ResumeInterruptedBatch(s).value, rows, Interrupted);
    }
  }

  lemma RetainedSame(s: EngineState, t: EngineState, rows: seq<Row>, status: RecordStatus)
    requires Inv(s) && s.status != StateRunning && Resumed(s, t, status)
    ensures AllRetained(t.records, rows, Running) <==> AllRetained(s.records, rows, status)
  {
    CompiledIsStructured(s);
    var lo, hi := Located(s);
    RecordsAccepted(s, lo, hi);
    forall k | 0 <= k < |s.records|
      ensures t.records[k].id == s.records[k].id && (t.records[k].status == Running <==> s.records[k].status == status)
    {
      assert AcceptsRecord(s, s.records[k]);
    }
  }
}
