/** The session object itself: closure variables reassigned between awaits. */
module RuntimeSession {
  import opened Wrappers
  import opened Workflows
  import opened Records
  import opened Engine
  import opened Continuations
  import opened WorkflowRuntime
  import EngineDraft

  lemma WithoutFirst(rows: seq<Row>, id: string)
    requires rows != []
    ensures Without(rows, id) == (if rows[0].recordId == id then [] else [rows[0]]) + Without(rows[1..], id)
  {
  }

  class Session {
    var engine: Option<EngineState>
    var continuations: seq<Row>
    var roles: map<string, Role>
    var phaseBusy: bool
    var aborted: bool

    function View(): Runtime
      reads this
    {
      Runtime(engine, continuations, roles, phaseBusy, aborted)
    }

    constructor ()
      ensures View() == Runtime(None, [], map[], false, false)
    {
      engine, continuations, roles, phaseBusy, aborted := None, [], map[], false, false;
    }

    method DropRow(id: string)
      modifies this`continuations
      ensures continuations == Without(old(continuations), id)
    {
      var rows := continuations;
      var kept: seq<Row> := [];
      for i := 0 to |rows|
        invariant kept + Without(rows[i..], id) == Without(rows, id)
      {
        WithoutFirst(rows[i..], id);
        assert rows[i..][1..] == rows[i + 1..];
        if rows[i].recordId != id {
          kept := kept + [rows[i]];
        }
      }
      continuations := kept;
    }

    /** The new invocation may have effects, so its predecessor is no longer a resume point. */
    method StartPrompt(id: string)
      requires CanStep(View()) && AtStage(View(), id, Setup) && !aborted
      modifies this
      ensures View() == Next(old(View()), PromptStarts(id))
    {
      DropRow(id);
      roles := roles[id := roles[id].(stage := Prompting)];
    }

    /** The report callback handed to the child. */
    method Report(id: string, raw: RawOutcome) returns (accepted: bool)
      requires CanStep(View()) && id in roles
      modifies this
      ensures View() == Next(old(View()), ReportArrives(id, raw))
      ensures accepted <==>
        && old(roles[id].stage == Prompting && !aborted && roles[id].outcome.None?)
        && ParseOutcome(raw).Some?
    {
      var role := roles[id];
      accepted := false;
      if role.stage != Prompting || aborted {
        role := Fail(role, "Report outside the active role turn");
      } else {
        var parsed := ParseOutcome(raw);
        if role.outcome.Some? || parsed.None? {
          role := Fail(role, "Invalid or duplicate report");
        } else {
          role := role.(outcome := parsed);
          accepted := true;
        }
      }
      roles := roles[id := role];
    }

    /** What the finished attempt amounts to once its child is gone. */
    static method Conclude(closed: Role, clean: bool) returns (role: Role)
      ensures role == Concluded(DisposedRole(closed, clean))
    {
      role := closed;
      if !clean {
        role := Fail(role.(retained := None), "Role cleanup failed");
      }
      if role.resourceStop.Some? {
        if role.retained.Some? && !Truthy(role.error) {
          role := role.(outcome := Some(Outcome(NeedsHuman, ResourceSummary, None, None)));
        } else {
          role := Fail(role.(retained := None), "Continuation could not be saved");
        }
      }
    }

    method ReplaceRow(id: string, retained: Option<string>)
      modifies this`continuations
      ensures continuations
           == Without(old(continuations), id) + if retained.Some? then [Row(id, retained.value)] else []
    {
      DropRow(id);
      if retained.Some? {
        continuations := continuations + [Row(id, retained.value)];
      }
    }

    /** Everything after the child is disposed: conclude, replace the row, record unless cancelled. */
    method FinishChild(id: string, clean: bool)
      requires CanStep(View()) && AtStage(View(), id, Closing)
      modifies this
      ensures View() == FinishRole(old(View()), id, DisposedRole(old(roles[id]), clean))
    {
      var role := Conclude(roles[id], clean);
      ReplaceRow(id, role.retained);
      var report := Engine.Report(RawOf(role.outcome), role.error);
      if !aborted || role.completedBeforeCancellation {
        var recorded := EngineDraft.RecordOutcome(engine.value, id, report);
        if recorded.Success? {
          engine := Some(recorded.value);
        }
      }
      roles := roles[id := role.(stage := Finished)];
    }

    /** The error path of a phase action: interrupt what still runs, or cross the barrier. */
    method RecoverDrive()
      requires CanStep(View()) && !InFlight(View())
      modifies this
      ensures View() == Next(old(View()), DriveFails)
    {
      if engine.Some? && engine.value.status == StateRunning {
        if exists i :: 0 <= i < |engine.value.records| && engine.value.records[i].status == Running {
          var interrupted := EngineDraft.InterruptEngine(engine.value, WasInterrupted);
          engine := Some(interrupted);
        } else {
          var settled := EngineDraft.SettleBatch(engine.value);
          if settled.Success? {
            engine := Some(settled.value);
          }
        }
      }
      phaseBusy := false;
    }

    /** archiveWorkflow: conversations never outlive their task. */
    method AbandonPhase() returns (abandoned: bool)
      requires CanStep(View())
      modifies this
      ensures View() == Next(old(View()), Abandon)
      ensures abandoned ==> engine.None? && continuations == []
      ensures abandoned <==> old(!phaseBusy && engine.Some? && engine.value.status != StateCompleted)
    {
      if phaseBusy || engine.None? || engine.value.status == StateCompleted {
        return false;
      }
      engine, continuations, roles := None, [], map[];
      return true;
    }
  }
}
