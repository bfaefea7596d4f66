/** Checkpoints of lawful states are accepted unchanged, and continuing from one is lawful again. */
module EngineCheckpoints {
  import opened Wrappers
  import opened Text
  import opened Records
  import opened Compile
  import opened Engine
  import opened EngineInvariant
  import opened EngineSteps
  import opened EngineTransitions

  // ---- parseEngineState accepts every lawful state as it is ----

  lemma NormalizedAlready(rs: seq<Record>)
    requires AllLocal(rs) && AllShaped(rs)
    ensures NormalizeRecords(rs) == rs && forall i :: 0 <= i < |rs| ==> ParsableRecord(rs[i])
  {
    forall i | 0 <= i < |rs|
      ensures NormalizeRecord(rs[i]) == rs[i] && ParsableRecord(rs[i])
    {
      assert LocalOk(rs[i]) && WellShaped(rs[i]);
      if rs[i].outcome.Some? {
        TrimTrimmed(rs[i].outcome.value.summary);
      }
    }
  }

  lemma RecordsAccepted(s: EngineState, lo: nat, hi: nat)
    requires Structured(s.records) && AllLocal(s.records) && Uniform(s.records) && ModeOk(s) && FrontierAt(s, lo, hi)
    ensures forall i :: 0 <= i < |s.records| ==> AcceptsRecord(s, s.records[i])
  {
    forall i | 0 <= i < |s.records|
      ensures AcceptsRecord(s, s.records[i])
    {
      assert LocalOk(s.records[i]);
      if lo <= i < hi {
        SameBatch(s.records, i, lo);
        assert s.records[lo].status == Pending ==> s.records[i].status == Pending;
      }
    }
  }

  lemma FirstUnfinishedAt(rs: seq<Record>, lo: nat)
    requires lo <= |rs| && DoneBefore(rs, lo) && (lo < |rs| ==> !Done(rs[lo]))
    ensures FirstUnfinished(rs, 0) == lo
  {
  }

  lemma ReadyUnfinished(rs: seq<Record>, lo: nat, hi: nat)
    requires lo < |rs| && Frontier(rs, lo, hi) && Uniform(rs) && rs[lo].status == Pending
    ensures FirstUnfinished(rs, 0) == lo && UnfinishedPending(rs, 0)
  {
    FirstUnfinishedAt(rs, lo);
    OpenFromReady(rs, lo, hi);
  }

  lemma HumanUnfinished(rs: seq<Record>, lo: nat, hi: nat)
    requires Structured(rs) && lo < |rs| && Frontier(rs, lo, hi) && rs[lo].kind == Human && rs[lo].status == Waiting
    ensures FirstUnfinished(rs, 0) == lo && UnfinishedPending(rs, lo + 1)
  {
    FirstUnfinishedAt(rs, lo);
    if hi > lo + 1 {
      SameBatch(rs, lo, lo + 1);
    }
  }

  lemma AcceptsPaused(s: EngineState, lo: nat, hi: nat)
    requires Structured(s.records) && AllLocal(s.records) && Uniform(s.records) && ModeOk(s) && FrontierAt(s, lo, hi)
    requires s.status == StateWaiting
    ensures Accepts(s)
  {
    RecordsAccepted(s, lo, hi);
    var rs := s.records;
    match s.pause.value.kind
    case HumanPause => HumanUnfinished(rs, lo, hi);
    case SemiPause => ReadyUnfinished(rs, lo, hi);
    case ReportPause =>
      var i :| lo <= i < hi && rs[i].status == Waiting;
      SameBatch(rs, i, lo);
      assert LocalOk(rs[i]);
    case _ =>
  }

  lemma AcceptsLawful(s: EngineState, lo: nat, hi: nat)
    requires Structured(s.records) && AllLocal(s.records) && Uniform(s.records) && ModeOk(s) && FrontierAt(s, lo, hi)
    ensures Accepts(s)
  {
    RecordsAccepted(s, lo, hi);
    match s.status
    case StateReady => ReadyUnfinished(s.records, lo, hi);
    case StateCompleted => FirstUnfinishedAt(s.records, lo);
    case StateWaiting => AcceptsPaused(s, lo, hi);
    case _ =>
  }

  /** The strict validator accepts every lawful state and returns it unchanged. */
  lemma ParseAccepts(s: EngineState)
    requires Inv(s)
    ensures ParseEngineState(s) == Success(s)
  {
    CompiledIsStructured(s);
    NormalizedAlready(s.records);
    var lo, hi := Located(s);
    AcceptsLawful(s, lo, hi);
    assert s.(records := s.records) == s;
  }

  /** Restoring is the identity, except that running work comes back interrupted. */
  lemma RestoreExact(s: EngineState)
    requires Inv(s)
    ensures RestoreEngine(s)
         == Success(if s.status == StateRunning then InterruptEngine(s, WasInterrupted) else s)
  {
    ParseAccepts(s);
  }

  // ---- resuming and restarting ----

  predicate Continues(s: EngineState, status: RecordStatus, forget: bool) {
    || (s.status == StateInterrupted && status == Interrupted && !forget)
    || (s.status == StateWaiting && PausedFor(s, ReportPause) && status == Waiting && forget)
    || (s.status == StateBlocked && status == Blocked && forget)
  }

  /** The records put back to work are exactly agents of the frontier batch. */
  lemma RerunMembers(s: EngineState, lo: nat, hi: nat, status: RecordStatus, forget: bool)
    requires Structured(s.records) && FrontierAt(s, lo, hi) && Continues(s, status, forget)
    requires CheckResumable(s.records, status).Success?
    ensures lo < |s.records| && s.records[lo].kind == Agent
    ensures forall i :: 0 <= i < |s.records| && s.records[i].status == status ==>
              lo <= i < hi && s.records[i].kind == Agent
    ensures Members(s.records, lo, hi,
                    if status == Interrupted then {Interrupted, Completed} else {Completed, Waiting, Blocked})
  {
    var rs := s.records;
    var first := FirstAgentWith(rs, status, 0);
    assert lo <= first < hi;
    SameBatch(rs, first, lo);
    forall i | 0 <= i < |rs| && rs[i].status == status
      ensures lo <= i < hi && rs[i].kind == Agent
    {
      assert lo <= i < hi;
      SameBatch(rs, i, lo);
    }
    if status == Interrupted {
      forall i | lo <= i < hi
        ensures rs[i].status in {Interrupted, Completed}
      {
        assert !Obstructs(rs, i, first, status);
      }
    }
  }

  lemma RerunOk(rs: seq<Record>, lo: nat, hi: nat, status: RecordStatus, forget: bool)
    requires Structured(rs) && AllLocal(rs) && Uniform(rs) && Witnessed(rs) && lo < |rs| && Frontier(rs, lo, hi)
    requires status in {Interrupted, Waiting, Blocked} && (status == Interrupted || forget)
    requires forall i :: 0 <= i < |rs| && rs[i].status == status ==> lo <= i < hi && rs[i].kind == Agent
    ensures var c := Rerun(rs, status, forget);
            && SameTopology(rs, c) && AllLocal(c) && Uniform(c) && Witnessed(c) && Evolves(rs, c)
            && NoNewSkips(rs, c) && Frontier(c, lo, hi)
  {
    var c := Rerun(rs, status, forget);
    forall i | 0 <= i < |rs|
      ensures Topology(rs[i]) == Topology(c[i]) && LocalOk(c[i])
    {
      assert LocalOk(rs[i]);
    }
    SameFields(rs, c);
    WitnessedKept(rs, c);
    RerunUniform(rs, status, forget);
  }

  lemma RerunUniform(rs: seq<Record>, status: RecordStatus, forget: bool)
    requires Uniform(rs) && status != Pending
    ensures Uniform(Rerun(rs, status, forget))
  {
    var c := Rerun(rs, status, forget);
    forall i, j | 0 <= i < |c| && 0 <= j < |c| && c[i].batch == c[j].batch && c[i].status == Pending
      ensures c[j].status == Pending
    {
      assert rs[i].status == Pending && rs[j].status == Pending;
    }
  }

  lemma RestartedKeeps(s: EngineState, status: RecordStatus, forget: bool)
    requires Inv(s) && Continues(s, status, forget) && Restarted(s, status, forget).Success?
    ensures var t := Restarted(s, status, forget).value;
            && Inv(t) && Evolves(s.records, t.records) && NoNewSkips(s.records, t.records)
            && t.records == Rerun(s.records, status, forget)
  {
    CompiledIsStructured(s);
    var lo, hi := Located(s);
    RerunMembers(s, lo, hi, status, forget);
    RerunOk(s.records, lo, hi, status, forget);
    var k := FirstWith(s.records, status, 0);
    var t := s.(records := Rerun(s.records, status, forget), status := StateRunning,
                activeBatch := Some(s.records[k].batch), pause := None);
    RerunLawful(s, t, lo, hi, status, forget, k);
    Assemble(s, t, lo, hi);
    ParseAccepts(t);
  }

  lemma RerunLawful(s: EngineState, t: EngineState, lo: nat, hi: nat, status: RecordStatus, forget: bool, k: nat)
    requires FrontierAt(s, lo, hi) && ModeOk(s) && lo < |s.records| && s.records[lo].kind == Agent
    requires status in {Interrupted, Waiting, Blocked} && k < |s.records| && s.records[k].status == status
    requires lo <= k < hi
    requires Members(s.records, lo, hi,
                     if status == Interrupted then {Interrupted, Completed} else {Completed, Waiting, Blocked})
    requires t == s.(records := Rerun(s.records, status, forget), status := StateRunning,
                     activeBatch := Some(s.records[k].batch), pause := None)
    requires Frontier(t.records, lo, hi)
    ensures StatusOk(t, lo, hi) && ModeOk(t)
  {
  }

  lemma ResumeKeeps(s: EngineState, status: EngineStatus, kind: PauseKind, record: RecordStatus, forget: bool)
    requires Inv(s) && Resume(s, status, kind, record, forget).Success?
    requires || (status == StateInterrupted && kind == InterruptedPause && record == Interrupted && !forget)
             || (status == StateWaiting && kind == ReportPause && record == Waiting && forget)
             || (status == StateBlocked && kind == FailurePause && record == Blocked && forget)
    ensures var t := Resume(s, status, kind, record, forget).value;
            && Inv(t) && Evolves(s.records, t.records) && NoNewSkips(s.records, t.records)
            && t.records == Rerun(s.records, record, forget)
  {
    ParseAccepts(s);
    RestartedKeeps(s, record, forget);
  }
}
