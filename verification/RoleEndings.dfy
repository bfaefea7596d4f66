/** What becomes of a role's conversation and of its record, by how its prompt ended. */
module RoleEndings {
  import opened Wrappers
  import opened Text
  import opened Workflows
  import opened Records
  import opened Engine
  import opened EngineInvariant
  import opened EngineTransitions
  import opened BatchOutcomes
  import opened Continuations
  import opened Continuing
  import opened WorkflowRuntime
  import opened RuntimeProofs

  /** How the child's prompt ended, and what its conversation was then. */
  datatype End = Returned(reason: StopReason, signalled: bool) | Threw(contextLimit: bool)

  function EndEvent(id: string, end: End, snapshot: Option<string>): Event {
    match end
    case Returned(reason, signalled) => PromptReturns(id, reason, signalled, snapshot)
    case Threw(contextLimit) => PromptThrows(id, contextLimit, snapshot)
  }

  function AfterEnd(s: Runtime, id: string, end: End, snapshot: Option<string>): Runtime {
    match end
    case Returned(reason, signalled) => PromptReturned(s, id, reason, signalled, snapshot)
    case Threw(contextLimit) => PromptThrown(s, id, contextLimit, snapshot)
  }

  /** The two steps this is about, as events. */
  lemma StepsAre(s: Runtime, id: string, end: End, snapshot: Option<string>, clean: bool)
    requires CanStep(s)
    ensures Next(s, EndEvent(id, end, snapshot)) == AfterEnd(s, id, end, snapshot)
    ensures Next(s, ChildDisposed(id, clean)) == ChildGone(s, id, clean)
  {
  }

  predicate Failed(role: Role) {
    role.error.Some? && role.error.value != ""
  }

  /** The prompt completed while nothing had been cancelled. */
  predicate InTime(aborted: bool, end: End) {
    end.Returned? && end.reason == PromptCompleted && !aborted
  }

  /** A preserving role without an error ran into a limit. */
  predicate LimitHit(role: Role, end: End) {
    && role.preservesStop && !Failed(role)
    && match end
       case Returned(reason, _) => reason == PromptTokenLimit || reason == PromptRequestLimit
       case Threw(contextLimit) => contextLimit
  }

  /** The role did all that was asked of it. */
  predicate Accomplished(role: Role, aborted: bool, end: End) {
    InTime(aborted, end) && !Failed(role) && role.outcome.Some? && role.outcome.value.status == OutcomeCompleted
  }

  /** While the child was being disposed, a late report or a failed report tool may have left an error. */
  predicate Late(a: Role, b: Role) {
    b == a || (a.error.None? && b.error.Some? && b.error.value != "" && b == a.(error := b.error))
  }

  // ---- The locals once the prompt has ended ----

  /** What the attempt amounts to when its child is about to be disposed. */
  predicate Closed(role: Role, aborted: bool, end: End, snapshot: Option<string>, r: Role) {
    && r.stage == Closing && r.outcome == role.outcome && r.completedBeforeCancellation == InTime(aborted, end)
    && (r.resourceStop.Some? <==> LimitHit(role, end))
    && (Failed(r) <==> Failed(role) || (!LimitHit(role, end) && !(end.Returned? && end.reason == PromptCompleted)))
    && (r.error.Some? ==> r.error.value != "")
    && r.retained == if Accomplished(role, aborted, end) then None else snapshot
  }

  function Ended(role: Role, aborted: bool, end: End, snapshot: Option<string>): Role {
    CloseAttempt(match end
                 case Returned(reason, _) => ReturnedRole(role, reason, aborted)
                 case Threw(contextLimit) => ThrownRole(role, contextLimit),
                 snapshot)
  }

  lemma LocalsClose(role: Role, aborted: bool, end: End, snapshot: Option<string>)
    requires RoleOk(role, aborted) && role.stage == Prompting
    ensures Closed(role, aborted, end, snapshot, Ended(role, aborted, end, snapshot))
  {
    if end.Returned? {
      ReturnCloses(role, aborted, end, snapshot);
    } else {
      ThrowCloses(role, aborted, end, snapshot);
    }
  }

  lemma ReturnCloses(role: Role, aborted: bool, end: End, snapshot: Option<string>)
    requires RoleOk(role, aborted) && role.stage == Prompting && end.Returned?
    ensures Closed(role, aborted, end, snapshot, Ended(role, aborted, end, snapshot))
  {
    var r := ReturnedRole(role, end.reason, aborted);
    ReturnedIs(role, aborted, end);
    assert Ended(role, aborted, end, snapshot) == CloseAttempt(r, snapshot);
  }

  lemma ReturnedIs(role: Role, aborted: bool, end: End)
    requires RoleOk(role, aborted) && role.stage == Prompting && end.Returned?
    ensures var r := ReturnedRole(role, end.reason, aborted);
            && r.stage == Prompting && r.outcome == role.outcome
            && r.completedBeforeCancellation == InTime(aborted, end)
            && (r.resourceStop.Some? <==> LimitHit(role, end))
            && (Failed(r) <==> Failed(role) || (!LimitHit(role, end) && end.reason != PromptCompleted))
            && (r.error.Some? ==> r.error.value != "")
  {
  }

  lemma ThrowCloses(role: Role, aborted: bool, end: End, snapshot: Option<string>)
    requires RoleOk(role, aborted) && role.stage == Prompting && end.Threw?
    ensures Closed(role, aborted, end, snapshot, Ended(role, aborted, end, snapshot))
  {
    assert Ended(role, aborted, end, snapshot) == CloseAttempt(ThrownRole(role, end.contextLimit), snapshot);
  }

  lemma EndIs(s: Runtime, id: string, end: End, snapshot: Option<string>)
    requires AtStage(s, id, Prompting)
    ensures var t := AfterEnd(s, id, end, snapshot);
            && t.roles == s.roles[id := Ended(s.roles[id], s.aborted, end, snapshot)]
            && t.engine == s.engine && t.rows == s.rows && t.phaseBusy == s.phaseBusy
  {
  }

  lemma EndCloses(s: Runtime, id: string, end: End, snapshot: Option<string>)
    requires RolesOk(s) && AtStage(s, id, Prompting)
    ensures var t := AfterEnd(s, id, end, snapshot);
            && AtStage(t, id, Closing) && Closed(s.roles[id], s.aborted, end, snapshot, t.roles[id])
            && t.engine == s.engine && t.rows == s.rows && t.phaseBusy == s.phaseBusy
            && t.roles == s.roles[id := t.roles[id]]
  {
    EndIs(s, id, end, snapshot);
    LocalsClose(s.roles[id], s.aborted, end, snapshot);
  }

  // ---- Conversations ----

  lemma {:induction false} WithoutExactly(rows: seq<Row>, id: string)
    ensures forall row :: row in Without(rows, id) <==> row in rows && row.recordId != id
  {
    if rows != [] {
      WithoutExactly(rows[1..], id);
      assert rows == [rows[0]] + rows[1..];
    }
  }

  /**
   * Once the child is gone, this role's conversation is among the rows exactly if its disposal was clean, its snapshot
   * could be taken, it had not accomplished its work, and it did not run into a limit with an error. Nobody else's
   * conversation is touched. Siblings may have gone on in between.
   */
  lemma ConversationKept(s: Runtime, id: string, end: End, snapshot: Option<string>, m: Runtime, clean: bool, row: Row)
    requires RolesOk(s) && AtStage(s, id, Prompting)
    requires AtStage(m, id, Closing) && id in AfterEnd(s, id, end, snapshot).roles
    requires Late(AfterEnd(s, id, end, snapshot).roles[id], m.roles[id])
    ensures var u := ChildGone(m, id, clean);
            row in u.rows
            <==> if row.recordId != id then row in m.rows
                 else
                   && clean && snapshot == Some(row.checkpoint) && !Accomplished(s.roles[id], s.aborted, end)
                   && !(LimitHit(s.roles[id], end) && Failed(m.roles[id]))
  {
    EndCloses(s, id, end, snapshot);
    WithoutExactly(m.rows, id);
    var closed := DisposedRole(m.roles[id], clean);
    assert FinishedRowsOf(m, id, closed)
        == Without(m.rows, id)
           + if Concluded(closed).retained.Some? then [Row(id, Concluded(closed).retained.value)] else [];
    var a := AfterEnd(s, id, end, snapshot).roles[id];
    KeptExactly(s.roles[id], s.aborted, end, snapshot, a, m.roles[id], clean);
  }

  lemma KeptExactly(
    role: Role, aborted: bool, end: End, snapshot: Option<string>, a: Role, r: Role, clean: bool)
    requires Closed(role, aborted, end, snapshot, a) && Late(a, r)
    ensures Concluded(DisposedRole(r, clean)).retained
         == if clean && !Accomplished(role, aborted, end) && !(LimitHit(role, end) && Failed(r)) then snapshot else None
  {
  }

  // ---- Records ----

  /** The status a role's record ends in. */
  function Verdict(role: Role, end: End, kept: bool, failed: bool): RecordStatus {
    if LimitHit(role, end) then if kept then Waiting else Blocked
    else if failed || role.outcome.None? then Blocked
    else match role.outcome.value.status
         case OutcomeCompleted => Completed
         case OutcomeBlocked => Blocked
         case NeedsHuman => Waiting
  }

  /** Some error stands against the attempt: an old one, a bad ending, a late one, or a failed clean-up. */
  predicate Faulty(role: Role, end: End, late: Role, clean: bool) {
    Failed(role) || !(end.Returned? && end.reason == PromptCompleted) || Failed(late) || !clean
  }

  /** The record as the role's ending settles it. */
  predicate Judged(role: Role, end: End, late: Role, snapshot: Option<string>, clean: bool, c: Record) {
    var kept := clean && snapshot.Some? && !Failed(late);
    && c.status == Verdict(role, end, kept, Faulty(role, end, late, clean))
    && (LimitHit(role, end) && kept ==> c.outcome.Some? && c.outcome.value.status == NeedsHuman)
    && (!LimitHit(role, end) && role.outcome.Some? ==> c.outcome == role.outcome)
  }

  lemma Judges(role: Role, aborted: bool, end: End, snapshot: Option<string>, a: Role, late: Role, clean: bool,
               before: Record, c: Record)
    requires Closed(role, aborted, end, snapshot, a) && Late(a, late)
    requires Answered(before, c, ReportOf(Concluded(DisposedRole(late, clean)))) && before.outcome.None?
    requires role.outcome.Some? ==> role.outcome.value.summary != "" && Trimmed(role.outcome.value.summary)
    ensures Judged(role, end, late, snapshot, clean, c)
  {
    ReportSays(role, aborted, end, snapshot, a, late, clean);
    Fits(role, ReportOf(Concluded(DisposedRole(late, clean))), before, c);
  }

  lemma EngineAfter(m: Runtime, id: string, clean: bool)
    requires AtStage(m, id, Closing)
    ensures var closed := DisposedRole(m.roles[id], clean);
            var r := RecordOutcome(m.engine.value, id, ReportOf(Concluded(closed)));
            ChildGone(m, id, clean).engine
            == if (m.aborted && !m.roles[id].completedBeforeCancellation) || r.Failure? then m.engine else Some(r.value)
  {
  }

  /**
   * Once the child is gone, the role's record is settled unless the turn was cancelled first. It completes, asks or
   * fails as the role reported, fails if anything went wrong, and asks to be continued if the role ran into a limit
   * with its conversation kept. Only this record changes.
   */
  lemma RoleRecorded(s: Runtime, id: string, end: End, snapshot: Option<string>, m: Runtime, clean: bool, i: nat)
    requires RolesOk(s) && AtStage(s, id, Prompting)
    requires AtStage(m, id, Closing) && Inv(m.engine.value) && id in AfterEnd(s, id, end, snapshot).roles
    requires Late(AfterEnd(s, id, end, snapshot).roles[id], m.roles[id])
    requires i < |m.engine.value.records| && m.engine.value.records[i].id == id
    requires m.engine.value.records[i].status == Running
    ensures var e, u := m.engine.value, ChildGone(m, id, clean);
            && u.engine.Some? && |u.engine.value.records| == |e.records|
            && u.engine.value == e.(records := e.records[i := u.engine.value.records[i]])
            && if m.aborted && !InTime(s.aborted, end) then u.engine == m.engine
               else Judged(s.roles[id], end, m.roles[id], snapshot, clean, u.engine.value.records[i])
  {
    EndCloses(s, id, end, snapshot);
    EngineAfter(m, id, clean);
    var e := m.engine.value;
    if m.aborted && !InTime(s.aborted, end) {
      assert e.records[i := e.records[i]] == e.records;
    } else {
      var p := ReportOf(Concluded(DisposedRole(m.roles[id], clean)));
      TakenExactly(e, id, i, p);
      assert RoleOk(s.roles[id], s.aborted);
      Judges(s.roles[id], s.aborted, end, snapshot, AfterEnd(s, id, end, snapshot).roles[id], m.roles[id], clean,
             e.records[i], RecordOutcome(e, id, p).value.records[i]);
    }
  }

  lemma TakenExactly(e: EngineState, id: string, i: nat, p: Engine.Report)
    requires Inv(e) && i < |e.records| && e.records[i].id == id && e.records[i].status == Running
    ensures RecordOutcome(e, id, p).Success? && |RecordOutcome(e, id, p).value.records| == |e.records|
    ensures var c := RecordOutcome(e, id, p).value.records[i];
            && RecordOutcome(e, id, p).value == e.(records := e.records[i := c])
            && Answered(e.records[i], c, p) && e.records[i].outcome.None?
  {
    CompiledIsStructured(e);
    assert RunsAs(e.records, id);
    RecordExact(e, id, p);
    OnlyOne(e.records, RecordOutcome(e, id, p).value.records, i);
    assert LocalOk(e.records[i]);
  }

  lemma OnlyOne(rs: seq<Record>, c: seq<Record>, i: nat)
    requires Structured(rs) && |c| == |rs| && i < |rs|
    requires forall k :: 0 <= k < |rs| && rs[k].id != rs[i].id ==> c[k] == rs[k]
    ensures c == rs[i := c[i]]
  {
    forall k | 0 <= k < |rs| ensures k != i ==> c[k] == rs[k] {
      OnePlace(rs, i, k);
    }
  }

  /** What the role's call tells the engine. */
  lemma ReportSays(
    role: Role, aborted: bool, end: End, snapshot: Option<string>, a: Role, r: Role, clean: bool)
    requires Closed(role, aborted, end, snapshot, a) && Late(a, r)
    ensures var p := ReportOf(Concluded(DisposedRole(r, clean)));
            var kept := clean && snapshot.Some? && !Failed(r);
            && (Erred(p) <==> if LimitHit(role, end) then !kept else Faulty(role, end, r, clean))
            && (LimitHit(role, end) && kept ==> p.outcome == RawOutcome(NeedsHuman, ResourceSummary, None, None))
            && (!LimitHit(role, end) ==> p.outcome == RawOf(role.outcome))
  {
  }

  lemma Fits(role: Role, p: Engine.Report, before: Record, c: Record)
    requires Answered(before, c, p) && before.outcome.None?
    requires role.outcome.Some? ==> role.outcome.value.summary != "" && Trimmed(role.outcome.value.summary)
    ensures p.outcome == RawOf(role.outcome) ==>
              && c.status == (if Erred(p) || role.outcome.None? then Blocked
                              else match role.outcome.value.status
                                   case OutcomeCompleted => Completed
                                   case OutcomeBlocked => Blocked
                                   case NeedsHuman => Waiting)
              && (role.outcome.Some? ==> c.outcome == role.outcome)
    ensures p.outcome == RawOutcome(NeedsHuman, ResourceSummary, None, None) ==>
              && c.outcome.Some? && c.outcome.value.status == NeedsHuman
              && c.status == if Erred(p) then Blocked else Waiting
    ensures Erred(p) ==> c.status == Blocked
  {
    assert !IsSpace(ResourceSummary[0]);
    if role.outcome.Some? {
      var summary := role.outcome.value.summary;
      assert !IsSpace(summary[0]);
      if p.outcome == RawOf(role.outcome) {
        StripsOnly(summary, c.outcome.value.summary);
        TrimTrimmed(summary);
      }
    }
  }

  // ---- Before the prompt and while it runs ----

  /** Starting the prompt makes the role's old conversation unusable, and opens it to reports. */
  lemma StartsExact(s: Runtime, id: string, row: Row)
    requires AtStage(s, id, Setup) && !s.aborted
    ensures var t := PromptStarted(s, id);
            && t.engine == s.engine && t.roles == s.roles[id := s.roles[id].(stage := Prompting)]
            && (row in t.rows <==> row in s.rows && row.recordId != id)
  {
    WithoutExactly(s.rows, id);
  }

  /** A report counts only during the prompt, before cancellation, once and in shape; any other leaves an error. */
  lemma ReportExact(s: Runtime, id: string, raw: RawOutcome)
    requires id in s.roles
    ensures var role, r := s.roles[id], ReportArrived(s, id, raw).roles[id];
            var counts := role.stage == Prompting && !s.aborted && role.outcome.None?
                          && raw.RawOutcome? && !AllSpace(raw.summary);
            && (!counts ==> r.error.Some? && r.outcome == role.outcome)
            && (counts ==>
                  && r.error == role.error && r.outcome.Some? && Strips(raw.summary, r.outcome.value.summary)
                  && r.outcome.value.status == raw.status && r.outcome.value.review == raw.review
                  && r.outcome.value.allDone == raw.allDone)
    ensures ReportToolFailed(s, id).roles[id].error.Some?
  {
    if raw.RawOutcome? {
      TrimStrips(raw.summary);
    }
  }

  /**
   * A role that fails before its prompt starts loses whatever conversation it had, and its record fails unless the turn
   * was cancelled first.
   */
  lemma SetupFailsExact(s: Runtime, id: string, i: nat, row: Row)
    requires Consistent(s) && AtStage(s, id, Setup)
    requires i < |s.engine.value.records| && s.engine.value.records[i].id == id
    requires s.engine.value.records[i].status == Running
    ensures var e, t := s.engine.value, SetupFailed(s, id, false);
            && (row in t.rows <==> row in s.rows && row.recordId != id)
            && t.engine.Some? && |t.engine.value.records| == |e.records|
            && t.engine.value == e.(records := e.records[i := t.engine.value.records[i]])
            && t.engine.value.records[i].status == if s.aborted then Running else Blocked
  {
    var e := s.engine.value;
    var closed := CloseAttempt(ThrownRole(s.roles[id], false), None);
    assert RoleOk(s.roles[id], s.aborted);
    SetupCloses(s.roles[id], s.aborted);
    WithoutExactly(s.rows, id);
    assert FinishedRowsOf(s, id, closed) == Without(s.rows, id) + [];
    if s.aborted {
      assert e.records[i := e.records[i]] == e.records;
    } else {
      TakenExactly(e, id, i, ReportOf(Concluded(closed)));
    }
  }

  lemma SetupCloses(role: Role, aborted: bool)
    requires RoleOk(role, aborted) && role.stage == Setup
    ensures var closed := CloseAttempt(ThrownRole(role, false), None);
            && closed.retained.None? && closed.resourceStop.None? && !closed.completedBeforeCancellation
            && Concluded(closed) == closed && Erred(ReportOf(closed))
  {
  }

  /**
   * So a continued role that is cancelled before its prompt starts cannot be continued again: its conversation is gone,
   * although nothing has happened since it was kept.
   */
  lemma LostBeforePrompt(s: Runtime, id: string, i: nat)
    requires Consistent(s) && CanStep(s) && AtStage(s, id, Setup) && s.aborted
    requires i < |s.engine.value.records| && s.engine.value.records[i].id == id
    requires s.engine.value.records[i].status == Running
    requires !InFlight(SetupFailed(s, id, false)) && s.engine.value.status == StateRunning
    ensures var u := DriveFailed(SetupFailed(s, id, false));
            && u.engine.Some? && u.engine.value.status == StateInterrupted
            && u.engine.value.records[i].status == Interrupted && !CanResume(u.engine, u.rows)
  {
    var t := SetupFailed(s, id, false);
    SetupFailsExact(s, id, i, Row(id, ""));
    SetupFailsKeeps(s, id, false);
    ConsistentControl(t);
    var e := t.engine.value;
    assert e.records[i].status == Running;
    var u := DriveFailed(t);
    InterruptIs(e, WasInterrupted);
    assert SomeRecord(e.records, Running);
    assert u.engine == Some(InterruptEngine(e, WasInterrupted)) && u.rows == t.rows;
    CanResumeExact(u.engine.value, u.rows);
    NoRowLeft(s, id, i);
    assert !HasRow(u.rows, u.engine.value.records[i].id);
  }

  lemma NoRowLeft(s: Runtime, id: string, i: nat)
    requires Consistent(s) && AtStage(s, id, Setup)
    requires i < |s.engine.value.records| && s.engine.value.records[i].id == id
    requires s.engine.value.records[i].status == Running
    ensures !HasRow(SetupFailed(s, id, false).rows, id)
  {
    var rows := SetupFailed(s, id, false).rows;
    forall k | 0 <= k < |rows| ensures rows[k].recordId != id {
      SetupFailsExact(s, id, i, rows[k]);
      assert rows[k] in rows;
    }
  }
}
