/** Whole runs of the engine: every sequence of transitions from createEngine. */
module EngineRuns {
  import opened Wrappers
  import opened Text
  import opened Workflows
  import opened Records
  import opened Compile
  import opened Engine
  import opened EngineInvariant
  import opened EngineSteps
  import opened EngineTransitions
  import opened EngineCheckpoints

  datatype Event =
    | Begin | Reported(id: string, report: Report) | Settle | Answered(answer: string) | Interrupt(message: string)
    | ResumeInterrupted | ResumeReported | RestartBlocked | Restore

  function Apply(s: EngineState, e: Event): Result<EngineState, EngineError>
    requires HasControlData(s.records)
  {
    match e
    case Begin => BeginBatch(s)
    case Reported(id, report) => RecordOutcome(s, id, report)
    case Settle => SettleBatch(s)
    case Answered(answer) => AnswerCheckpoint(s, answer)
    case Interrupt(message) => Success(InterruptEngine(s, message))
    case ResumeInterrupted => ResumeInterruptedBatch(s)
    case ResumeReported => ResumeReportedBatch(s)
    case RestartBlocked => RestartBlockedBatch(s)
    case Restore => RestoreEngine(s)
  }

  lemma LawfulControl(s: EngineState)
    requires Inv(s)
    ensures HasControlData(s.records)
  {
    CompiledIsStructured(s);
  }

  lemma EvolvesSelf(rs: seq<Record>)
    ensures Evolves(rs, rs) && NoNewSkips(rs, rs)
  {
  }

  lemma RestoreKeeps(s: EngineState)
    requires Inv(s)
    ensures RestoreEngine(s).Success? && Inv(RestoreEngine(s).value)
    ensures Evolves(s.records, RestoreEngine(s).value.records) && NoNewSkips(s.records, RestoreEngine(s).value.records)
  {
    RestoreExact(s);
    EvolvesSelf(s.records);
    InterruptKeeps(s, WasInterrupted);
  }

  /** One successful transition: lawful again, finished records untouched, and only settling skips records. */
  lemma ApplyKeeps(s: EngineState, e: Event)
    requires Inv(s) && HasControlData(s.records) && Apply(s, e).Success?
    ensures Inv(Apply(s, e).value)
    ensures Evolves(s.records, Apply(s, e).value.records)
    ensures !e.Settle? ==> NoNewSkips(s.records, Apply(s, e).value.records)
  {
    match e
    case Begin => BeginKeeps(s);
    case Reported(id, report) => RecordKeeps(s, id, report);
    case Settle => SettleKeeps(s);
    case Answered(answer) => AnswerKeeps(s, answer);
    case Interrupt(message) => InterruptKeeps(s, message);
    case ResumeInterrupted => ResumeKeeps(s, StateInterrupted, InterruptedPause, Interrupted, false);
    case ResumeReported => ResumeKeeps(s, StateWaiting, ReportPause, Waiting, true);
    case RestartBlocked => ResumeKeeps(s, StateBlocked, FailurePause, Blocked, true);
    case Restore => RestoreKeeps(s);
  }

  /** A transition that throws leaves the caller with the state it had. */
  function Step(s: EngineState, e: Event): EngineState {
    if HasControlData(s.records) && Apply(s, e).Success? then Apply(s, e).value else s
  }

  function Run(s: EngineState, events: seq<Event>): EngineState
    decreases |events|
  {
    if events == [] then s else Run(Step(s, events[0]), events[1..])
  }

  lemma StepKeeps(s: EngineState, e: Event)
    requires Inv(s)
    ensures Inv(Step(s, e)) && Evolves(s.records, Step(s, e).records)
  {
    LawfulControl(s);
    EvolvesSelf(s.records);
    if Apply(s, e).Success? {
      ApplyKeeps(s, e);
    }
  }

  lemma {:induction false} RunKeeps(s: EngineState, events: seq<Event>)
    requires Inv(s)
    ensures Inv(Run(s, events))
    decreases |events|
  {
    if events != [] {
      StepKeeps(s, events[0]);
      RunKeeps(Step(s, events[0]), events[1..]);
    }
  }

  /** No replay: across any further run, finished records keep status, outcome and answer, and nothing reopens. */
  lemma {:induction false} NoReplay(s: EngineState, events: seq<Event>)
    requires Inv(s)
    ensures Evolves(s.records, Run(s, events).records)
    decreases |events|
  {
    EvolvesSelf(s.records);
    if events != [] {
      StepKeeps(s, events[0]);
      NoReplay(Step(s, events[0]), events[1..]);
      EvolvesTrans(s.records, Step(s, events[0]).records, Run(s, events).records);
    }
  }

  predicate ReachedBy(
    s: EngineState, workflow: Workflow, command: string, mode: Option<Mode>, events: seq<Event>)
  {
    var created := CreateEngine(workflow, command, mode);
    created.Success? && s == Run(created.value, events)
  }

  /** Some sequence of transitions, refused ones included, leads here from a created engine. */
  ghost predicate Reachable(s: EngineState) {
    exists workflow, command, mode, events :: ReachedBy(s, workflow, command, mode, events)
  }

  /** Nothing reachable is unlawful. */
  lemma ReachableLawful(s: EngineState)
    requires Reachable(s)
    ensures Inv(s)
  {
    var workflow, command, mode, events :| ReachedBy(s, workflow, command, mode, events);
    CreateKeeps(workflow, command, mode);
    RunKeeps(CreateEngine(workflow, command, mode).value, events);
  }

  /** Every reachable state is accepted unchanged by the validator, and restores to itself or its interruption. */
  lemma ReachableCheckpoints(s: EngineState)
    requires Reachable(s)
    ensures ParseEngineState(s) == Success(s)
    ensures RestoreEngine(s) == Success(if s.status == StateRunning then InterruptEngine(s, WasInterrupted) else s)
  {
    ReachableLawful(s);
    ParseAccepts(s);
    RestoreExact(s);
  }

  // ---- The loop gate ----

  predicate Started(r: Record) {
    r.status != Pending && r.status != Skipped
  }

  predicate FinalEnd(r: Record) {
    r.kind == LoopEnd && r.loops != [] && InnermostLoop(r).iteration == InnermostLoop(r).max
  }

  lemma GateAt(s: EngineState, lo: nat, hi: nat, e: nat, r: nat)
    requires Structured(s.records) && AllLocal(s.records) && FrontierAt(s, lo, hi)
    requires e < r < |s.records| && FinalEnd(s.records[e]) && Started(s.records[r])
    ensures s.records[e].status == Skipped
  {
    assert r < hi;
    if lo <= e {
      SameBatch(s.records, e, r);
    }
    assert LocalOk(s.records[e]);
  }

  /**
   * Loop gate: once any record has started, every final iteration end declared before it is skipped, and that
   * skip is witnessed by an earlier completed approval (or allDone) of that loop or of one enclosing it.
   */
  lemma LoopGate(s: EngineState, e: nat, r: nat)
    requires Reachable(s) && e < r < |s.records| && FinalEnd(s.records[e]) && Started(s.records[r])
    ensures s.records[e].status == Skipped
    ensures exists w :: 0 <= w < e && Witness(s.records, w, e)
  {
    ReachableLawful(s);
    CompiledIsStructured(s);
    var lo, hi := Located(s);
    GateAt(s, lo, hi, e, r);
    assert HasWitness(s.records, e);
  }

  /** Frontier: one batch separates finished work from work that has not started. */
  lemma ReachableFrontier(s: EngineState)
    requires Reachable(s)
    ensures exists lo: nat, hi: nat :: Frontier(s.records, lo, hi)
  {
    ReachableLawful(s);
    var lo, hi := Located(s);
    assert Frontier(s.records, lo, hi);
  }

  // ---- Boundedness ----

  function PendingCount(rs: seq<Record>): nat {
    if rs == [] then 0 else (if rs[0].status == Pending then 1 else 0) + PendingCount(rs[1..])
  }

  lemma {:induction false} PendingShrinks(a: seq<Record>, b: seq<Record>)
    requires |a| == |b| && NoNewPending(a, b)
    ensures PendingCount(b) <= PendingCount(a)
    ensures (exists i :: 0 <= i < |a| && a[i].status == Pending && b[i].status != Pending)
            ==> PendingCount(b) < PendingCount(a)
  {
    if a != [] {
      forall i | 0 <= i < |a[1..]| && b[1..][i].status == Pending
        ensures a[1..][i].status == Pending
      {
        assert b[i + 1].status == Pending;
      }
      PendingShrinks(a[1..], b[1..]);
      if i :| 0 <= i < |a| && a[i].status == Pending && b[i].status != Pending {
        if i > 0 {
          assert a[1..][i - 1].status == Pending && b[1..][i - 1].status != Pending;
        }
      }
    }
  }

  lemma {:induction false} PendingBounded(rs: seq<Record>)
    ensures PendingCount(rs) <= |rs|
  {
    if rs != [] {
      PendingBounded(rs[1..]);
    }
  }

  predicate Begins(s: EngineState, e: Event) {
    e.Begin? && BeginBatch(s).Success?
  }

  /** Batches begun during a run. */
  function Begun(s: EngineState, events: seq<Event>): nat
    decreases |events|
  {
    if events == [] then 0
    else (if Begins(s, events[0]) then 1 else 0) + Begun(Step(s, events[0]), events[1..])
  }

  lemma BeginConsumes(s: EngineState)
    requires Inv(s) && BeginBatch(s).Success?
    ensures PendingCount(BeginBatch(s).value.records) < PendingCount(s.records)
  {
    BeginKeeps(s);
    var k := FirstPending(s.records, 0);
    assert BeginBatch(s).value.records[k].status == Running;
    PendingShrinks(s.records, BeginBatch(s).value.records);
  }

  /** Starting a batch uses up a pending record, and nothing ever gives one back. */
  lemma StepConsumes(s: EngineState, e: Event)
    requires Inv(s)
    ensures (if Begins(s, e) then 1 else 0) + PendingCount(Step(s, e).records) <= PendingCount(s.records)
  {
    StepKeeps(s, e);
    PendingShrinks(s.records, Step(s, e).records);
    if Begins(s, e) {
      LawfulControl(s);
      BeginConsumes(s);
    }
  }

  lemma {:induction false} BegunBounded(s: EngineState, events: seq<Event>)
    requires Inv(s)
    ensures Begun(s, events) + PendingCount(Run(s, events).records) <= PendingCount(s.records)
    decreases |events|
  {
    if events != [] {
      StepKeeps(s, events[0]);
      StepConsumes(s, events[0]);
      BegunBounded(Step(s, events[0]), events[1..]);
    }
  }

  /** However a run goes, it begins at most as many batches as there are records. */
  lemma BatchBound(s: EngineState, events: seq<Event>)
    requires Inv(s)
    ensures Begun(s, events) <= |s.records|
  {
    BegunBounded(s, events);
    PendingBounded(s.records);
  }
}
