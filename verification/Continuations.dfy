/** Retained role conversations and when they may accompany an engine state. */
module Continuations {
  import opened Wrappers
  import opened Records
  import opened Engine

  /** A child's own checkpoint is opaque data. */
  datatype Row = Row(recordId: string, checkpoint: string)

  /** The record may carry a retained conversation. */
  predicate Retainable(r: Record) {
    && r.kind == Agent
    && (|| r.status == Interrupted
        || r.status == Blocked
        || (r.status == Waiting && r.outcome.Some? && r.outcome.value.status == NeedsHuman && !Truthy(r.error)))
  }

  predicate HasRetainable(rs: seq<Record>, id: string) {
    exists k :: 0 <= k < |rs| && rs[k].id == id && Retainable(rs[k])
  }

  predicate DistinctRows(rows: seq<Row>) {
    forall i, j :: 0 <= i < j < |rows| ==> rows[i].recordId != rows[j].recordId
  }

  predicate PausedEngine(engine: Option<EngineState>) {
    engine.Some? && engine.value.status in {StateWaiting, StateBlocked, StateInterrupted}
  }

  /** validateContinuations: true exactly when it does not throw. */
  predicate ValidContinuations(engine: Option<EngineState>, rows: seq<Row>, orchestrated: bool) {
    && DistinctRows(rows)
    && forall i :: 0 <= i < |rows| ==>
         && orchestrated && PausedEngine(engine)
         && HasRetainable(engine.value.records, rows[i].recordId)
  }

  function ResumeWorkflow(engine: EngineState): Result<EngineState, EngineError> {
    match engine.status
    case StateBlocked => RestartBlockedBatch(engine)
    case StateInterrupted => ResumeInterruptedBatch(engine)
    case _ => ResumeReportedBatch(engine)
  }

  predicate CanResume(engine: Option<EngineState>, rows: seq<Row>) {
    && engine.Some?
    && (|| engine.value.status == StateBlocked || engine.value.status == StateInterrupted
        || (engine.value.status == StateWaiting && engine.value.pause.Some?
            && engine.value.pause.value.kind == ReportPause))
    && var resumed := ResumeWorkflow(engine.value);
       resumed.Success?
       && (|| engine.value.status == StateBlocked
           || forall k :: 0 <= k < |resumed.value.records| && resumed.value.records[k].status == Running ==>
                exists i :: 0 <= i < |rows| && rows[i].recordId == resumed.value.records[k].id)
  }
}
