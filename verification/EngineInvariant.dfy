/** The inductive invariant of every engine run. */
module EngineInvariant {
  import opened Wrappers
  import opened Text
  import opened Records
  import opened Compile
  import opened CompileProofs
  import opened Engine

  // ---- What one record may look like ----

  predicate Untouched(r: Record) {
    r.outcome.None? && r.error.None? && r.answer.None?
  }

  predicate LocalOk(r: Record) {
    && (r.outcome.Some? ==> r.outcome.value.summary != "" && Trimmed(r.outcome.value.summary))
    && (r.status in {Pending, Running, Interrupted, Skipped} ==> Untouched(r))
    && match r.kind
       case Agent =>
         && r.answer.None?
         && (r.status == Completed ==>
               r.outcome.Some? && r.outcome.value.status == OutcomeCompleted && r.error.None?)
         && (r.status == Waiting ==>
               r.outcome.Some? && r.outcome.value.status == NeedsHuman && r.error.None?)
       case Human =>
         && r.status in {Pending, Completed, Skipped, Waiting}
         && r.outcome.None?
         && (r.status == Completed ==> r.answer.Some? && !IsBlank(r.answer.value))
       case LoopEnd =>
         && r.status in {Pending, Completed, Skipped, Blocked}
         && r.outcome.None? && r.loops != []
         && (r.status == Completed ==> InnermostLoop(r).iteration != InnermostLoop(r).max)
         && (r.status == Blocked ==> InnermostLoop(r).iteration == InnermostLoop(r).max)
  }

  predicate AllLocal(rs: seq<Record>) {
    forall i :: 0 <= i < |rs| ==> LocalOk(rs[i])
  }

  /** A batch is started or skipped as a whole. */
  predicate Uniform(rs: seq<Record>) {
    forall i, j :: 0 <= i < |rs| && 0 <= j < |rs| && rs[i].batch == rs[j].batch && rs[i].status == Pending
      ==> rs[j].status == Pending
  }

  // ---- Why a record was skipped ----

  predicate BatchApproved(rs: seq<Record>, w: nat)
    requires w < |rs|
  {
    forall j :: 0 <= j < |rs| && rs[j].batch == rs[w].batch ==>
      rs[j].status == Completed && !RequestsChanges(rs[j])
  }

  /**
   * Record `w` justifies skipping record `i`: it is an earlier completed approval (or allDone) whose innermost
   * loop contains `i`, nobody in its batch asked for changes, and allDone never skips a reviewer of its own iteration.
   */
  predicate Witness(rs: seq<Record>, w: nat, i: nat)
    requires w < |rs| && i < |rs|
  {
    && w < i
    && rs[w].kind == Agent && rs[w].status == Completed && rs[w].loops != []
    && BatchApproved(rs, w)
    && InLoop(rs[i], InnermostLoop(rs[w]).id)
    && (|| Approves(rs[w])
        || (ClaimsAllDone(rs[w])
            && !(rs[i].kind == Agent && rs[i].role == Some("reviewer") && InIteration(rs[i], InnermostLoop(rs[w])))))
  }

  predicate HasWitness(rs: seq<Record>, i: nat)
    requires i < |rs|
  {
    exists w :: 0 <= w < |rs| && Witness(rs, w, i)
  }

  predicate Witnessed(rs: seq<Record>) {
    forall i :: 0 <= i < |rs| && rs[i].status == Skipped ==> HasWitness(rs, i)
  }

  // ---- The frontier ----

  predicate IsBatch(rs: seq<Record>, lo: nat, hi: nat)
    requires lo < |rs|
  {
    && lo < hi <= |rs|
    && forall i :: 0 <= i < |rs| ==> (lo <= i < hi <==> rs[i].batch == rs[lo].batch)
  }

  predicate DoneBefore(rs: seq<Record>, lo: nat)
    requires lo <= |rs|
  {
    forall i :: 0 <= i < lo ==> Done(rs[i])
  }

  predicate OpenFrom(rs: seq<Record>, hi: nat)
    requires hi <= |rs|
  {
    forall i :: hi <= i < |rs| ==> rs[i].status == Pending || rs[i].status == Skipped
  }

  /** One batch at [lo, hi): everything earlier is finished, everything later has not started. */
  predicate Frontier(rs: seq<Record>, lo: nat, hi: nat) {
    && lo <= hi <= |rs|
    && (lo < |rs| ==> IsBatch(rs, lo, hi))
    && DoneBefore(rs, lo)
    && OpenFrom(rs, hi)
  }

  predicate Members(rs: seq<Record>, lo: nat, hi: nat, allowed: set<RecordStatus>)
    requires hi <= |rs|
  {
    forall i :: lo <= i < hi ==> rs[i].status in allowed
  }

  predicate SomeMember(rs: seq<Record>, lo: nat, hi: nat, status: RecordStatus)
    requires hi <= |rs|
  {
    exists i :: lo <= i < hi && rs[i].status == status
  }

  predicate NothingStarted(rs: seq<Record>) {
    forall i :: 0 <= i < |rs| ==> rs[i].status == Pending
  }

  predicate PausedFor(s: EngineState, kind: PauseKind) {
    s.pause.Some? && s.pause.value.kind == kind
  }

  /** How the frontier batch looks in each engine status. */
  predicate StatusOk(s: EngineState, lo: nat, hi: nat)
    requires Frontier(s.records, lo, hi)
  {
    var rs := s.records;
    && (s.status == StateRunning <==> s.activeBatch.Some?)
    && match s.status
       case StateReady =>
         s.pause.None? && lo < |rs| && rs[lo].kind == Agent && rs[lo].status == Pending
       case StateRunning =>
         && s.pause.None? && lo < |rs| && rs[lo].kind == Agent
         && s.activeBatch == Some(rs[lo].batch)
         && Members(rs, lo, hi, {Running, Completed, Waiting, Blocked})
       case StateWaiting =>
         && s.pause.Some?
         && (match s.pause.value.kind
             case ModePause => s.command == "develop" && s.mode.None?
             case HumanPause => lo < |rs| && rs[lo].kind == Human && rs[lo].status == Waiting
             case SemiPause => s.mode == Some(Semi) && lo < |rs| && rs[lo].kind == Agent && rs[lo].status == Pending
             case ReportPause =>
               && lo < |rs| && rs[lo].kind == Agent
               && Members(rs, lo, hi, {Completed, Waiting}) && SomeMember(rs, lo, hi, Waiting)
             case _ => false)
       case StateBlocked =>
         && PausedFor(s, FailurePause) && lo < |rs|
         && (|| (rs[lo].kind == Agent && Members(rs, lo, hi, {Completed, Waiting, Blocked})
                 && SomeMember(rs, lo, hi, Blocked))
             || (rs[lo].kind == LoopEnd && rs[lo].status == Blocked))
       case StateInterrupted =>
         PausedFor(s, InterruptedPause) && Members(rs, lo, hi, {Pending, Completed, Waiting, Blocked, Interrupted})
       case StateCompleted =>
         s.pause.None? && lo == |rs|
  }

  predicate ModeOk(s: EngineState) {
    s.command == "develop" && s.mode.None? ==>
      NothingStarted(s.records) && (PausedFor(s, ModePause) || PausedFor(s, InterruptedPause))
  }

  predicate Compiled(s: EngineState) {
    var c := CompileWorkflow(s.workflow, s.command);
    c.Success? && SameTopology(c.value, s.records)
  }

  /** Everything but the position of the frontier. */
  predicate Sound(s: EngineState) {
    Compiled(s) && AllLocal(s.records) && Uniform(s.records) && Witnessed(s.records) && ModeOk(s)
  }

  predicate FrontierAt(s: EngineState, lo: nat, hi: nat) {
    Frontier(s.records, lo, hi) && StatusOk(s, lo, hi)
  }

  ghost predicate Inv(s: EngineState) {
    Sound(s) && exists lo, hi :: FrontierAt(s, lo, hi)
  }

  // ---- Structure transfers along topology ----

  lemma TopologyFields(a: Record, b: Record)
    requires Topology(a) == Topology(b)
    ensures a.id == b.id && a.kind == b.kind && a.batch == b.batch && a.role == b.role
            && a.prompt == b.prompt && a.loops == b.loops
  {
    assert Topology(a).id == a.id && Topology(b).id == b.id;
    assert Topology(a).loops == a.loops && Topology(b).loops == b.loops;
    assert Topology(a).kind == a.kind && Topology(b).kind == b.kind;
    assert Topology(a).batch == a.batch && Topology(b).batch == b.batch;
    assert Topology(a).role == a.role && Topology(b).role == b.role;
    assert Topology(a).prompt == a.prompt && Topology(b).prompt == b.prompt;
  }

  lemma SameFields(a: seq<Record>, b: seq<Record>)
    requires SameTopology(a, b)
    ensures forall i :: 0 <= i < |a| ==>
      a[i].id == b[i].id && a[i].kind == b[i].kind && a[i].batch == b[i].batch && a[i].role == b[i].role
      && a[i].prompt == b[i].prompt && a[i].loops == b[i].loops
  {
    forall i | 0 <= i < |a|
      ensures a[i].id == b[i].id && a[i].kind == b[i].kind && a[i].batch == b[i].batch && a[i].role == b[i].role
              && a[i].prompt == b[i].prompt && a[i].loops == b[i].loops
    {
      TopologyFields(a[i], b[i]);
    }
  }

  lemma StructuredTransfer(a: seq<Record>, b: seq<Record>)
    requires SameTopology(a, b) && Structured(a)
    ensures Structured(b)
  {
    SameFields(a, b);
    forall i | 0 <= i < |b|
      ensures WellShaped(b[i])
    {
      assert WellShaped(a[i]);
    }
    forall i, j | 0 <= i < j < |b|
      ensures Related(b[i], b[j])
    {
      assert Related(a[i], a[j]);
    }
  }

  lemma CompiledIsStructured(s: EngineState)
    requires Compiled(s)
    ensures Structured(s.records) && HasControlData(s.records) && |s.records| <= MAX_RECORDS
  {
    CompileExact(s.workflow, s.command);
    CompiledStructured(s.workflow, s.command);
    StructuredTransfer(CompileWorkflow(s.workflow, s.command).value, s.records);
    ShapedHasControlData(s.records);
  }

  /** Members of one batch agree on everything structural. */
  lemma SameBatch(rs: seq<Record>, i: nat, j: nat)
    requires Structured(rs) && i < |rs| && j < |rs| && rs[i].batch == rs[j].batch
    ensures i == j || (rs[i].kind == Agent && rs[j].kind == Agent)
    ensures rs[i].loops == rs[j].loops && rs[i].kind == rs[j].kind
  {
    if i < j {
      assert Related(rs[i], rs[j]);
    } else if j < i {
      assert Related(rs[j], rs[i]);
    }
  }

  // ---- Preservation across changes of execution data ----

  /** Finished records are never touched. */
  predicate KeepsDone(a: seq<Record>, b: seq<Record>) {
    && SameTopology(a, b)
    && forall i :: 0 <= i < |a| && Done(a[i]) ==> b[i] == a[i]
  }

  predicate NoNewSkips(a: seq<Record>, b: seq<Record>)
    requires |a| == |b|
  {
    forall i :: 0 <= i < |a| && b[i].status == Skipped ==> a[i].status == Skipped
  }

  predicate NoNewPending(a: seq<Record>, b: seq<Record>)
    requires |a| == |b|
  {
    forall i :: 0 <= i < |a| && b[i].status == Pending ==> a[i].status == Pending
  }

  lemma WitnessKept(a: seq<Record>, b: seq<Record>, w: nat, i: nat)
    requires KeepsDone(a, b) && w < |a| && i < |a| && Witness(a, w, i)
    ensures Witness(b, w, i)
  {
    SameFields(a, b);
    assert b[w] == a[w];
    forall j | 0 <= j < |b| && b[j].batch == b[w].batch
      ensures b[j].status == Completed && !RequestsChanges(b[j])
    {
      assert b[j] == a[j];
    }
  }

  lemma WitnessedKept(a: seq<Record>, b: seq<Record>)
    requires KeepsDone(a, b) && NoNewSkips(a, b) && Witnessed(a)
    ensures Witnessed(b)
  {
    forall i | 0 <= i < |b| && b[i].status == Skipped
      ensures HasWitness(b, i)
    {
      assert HasWitness(a, i);
      var w :| 0 <= w < |a| && Witness(a, w, i);
      WitnessKept(a, b, w, i);
    }
  }

  lemma SameTopologyTrans(a: seq<Record>, b: seq<Record>, c: seq<Record>)
    requires SameTopology(a, b) && SameTopology(b, c)
    ensures SameTopology(a, c)
  {
    forall i | 0 <= i < |a|
      ensures Topology(a[i]) == Topology(c[i])
    {
      assert Topology(a[i]) == Topology(b[i]);
    }
  }

  lemma CompiledKept(s: EngineState, t: EngineState)
    requires Compiled(s) && t.workflow == s.workflow && t.command == s.command
    requires SameTopology(s.records, t.records)
    ensures Compiled(t)
  {
    SameTopologyTrans(CompileWorkflow(s.workflow, s.command).value, s.records, t.records);
  }

  // ---- Locating a batch ----

  function BatchEnd(rs: seq<Record>, lo: nat, k: nat): (hi: nat)
    requires lo < k <= |rs|
    ensures k <= hi <= |rs|
    ensures forall i :: k <= i < hi ==> rs[i].batch == rs[lo].batch
    ensures hi < |rs| ==> rs[hi].batch != rs[lo].batch
    decreases |rs| - k
  {
    if k < |rs| && rs[k].batch == rs[lo].batch then BatchEnd(rs, lo, k + 1) else k
  }

  /** Contiguous batches: a record with no batch mate before it starts an interval. */
  lemma BatchAt(rs: seq<Record>, lo: nat)
    requires Contiguous(rs) && lo < |rs|
    requires forall i :: 0 <= i < lo ==> rs[i].batch != rs[lo].batch
    ensures IsBatch(rs, lo, BatchEnd(rs, lo, lo + 1))
  {
    var hi := BatchEnd(rs, lo, lo + 1);
    forall i | hi <= i < |rs|
      ensures rs[i].batch != rs[lo].batch
    {
    }
  }
}
