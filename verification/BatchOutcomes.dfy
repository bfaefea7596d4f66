/** How a running batch ends, read off the reports, and what an answer at a checkpoint does. */
module BatchOutcomes {
  import opened Wrappers
  import opened Text
  import opened Records
  import opened Engine
  import opened EngineInvariant
  import opened EngineSteps
  import opened LoopClosing
  import opened EngineTransitions
  import opened EngineCheckpoints
  import opened EngineConfluence

  // ---- Beginning ----

  /** A ready engine begins exactly the batch of its first unfinished record: all of it runs, nothing else changes. */
  lemma BeginExact(s: EngineState)
    requires Inv(s) && s.status == StateReady
    ensures BeginBatch(s).Success?
    ensures exists k :: 0 <= k < |s.records| && !Done(s.records[k]) && (forall i :: 0 <= i < k ==> Done(s.records[i]))
              && BeginBatch(s).value == s.(activeBatch := Some(s.records[k].batch), status := StateRunning,
                                           records := BeginBatch(s).value.records)
              && |BeginBatch(s).value.records| == |s.records|
              && forall i :: 0 <= i < |s.records| ==>
                   BeginBatch(s).value.records[i]
                   == if s.records[i].batch != s.records[k].batch then s.records[i]
                      else s.records[i].(status := Running)
  {
    BeginKeeps(s);
    var lo := FirstPlace(s);
    BegunIs(s, lo);
  }

  lemma FirstPlace(s: EngineState) returns (lo: nat)
    requires Inv(s) && s.status == StateReady
    ensures lo < |s.records| && FirstPending(s.records, 0) == lo
    ensures !Done(s.records[lo]) && forall i :: 0 <= i < lo ==> Done(s.records[i])
  {
    var k, hi := Located(s);
    FirstOpen(s.records, k, hi);
    lo := k;
  }

  lemma FirstOpen(rs: seq<Record>, lo: nat, hi: nat)
    requires lo < |rs| && Frontier(rs, lo, hi) && rs[lo].status == Pending
    ensures FirstPending(rs, 0) == lo && !Done(rs[lo]) && forall i :: 0 <= i < lo ==> Done(rs[i])
  {
  }

  lemma BegunIs(s: EngineState, k: nat)
    requires BeginBatch(s).Success? && k < |s.records| && k == FirstPending(s.records, 0)
    ensures BeginBatch(s).value == s.(activeBatch := Some(s.records[k].batch), status := StateRunning,
                                      records := BeginBatch(s).value.records)
    ensures |BeginBatch(s).value.records| == |s.records|
    ensures forall i :: 0 <= i < |s.records| ==>
              BeginBatch(s).value.records[i]
              == if s.records[i].batch != s.records[k].batch then s.records[i]
                 else s.records[i].(status := Running)
  {
  }

  // ---- What a report says ----

  predicate Unusable(p: Report) {
    p.outcome.Malformed? || AllSpace(p.outcome.summary)
  }

  predicate Erred(p: Report) {
    p.error.Some? && p.error.value != ""
  }

  predicate Fails(p: Report) {
    Erred(p) || Unusable(p) || p.outcome.status == OutcomeBlocked
  }

  predicate Asks(p: Report) {
    !Erred(p) && !Unusable(p) && p.outcome.status == NeedsHuman
  }

  predicate Finishes(p: Report) {
    !Erred(p) && !Unusable(p) && p.outcome.status == OutcomeCompleted
  }

  /** What a report leaves in its record: its outcome with the summary trimmed, a status, and an error if it failed. */
  predicate Answered(r: Record, c: Record, p: Report) {
    && Topology(c) == Topology(r) && c.answer == r.answer
    && (c.status == Blocked <==> Fails(p)) && (c.status == Waiting <==> Asks(p))
    && (c.status == Completed <==> Finishes(p))
    && (Unusable(p) ==> c.outcome == r.outcome)
    && (!Unusable(p) ==>
          && c.outcome.Some? && Strips(p.outcome.summary, c.outcome.value.summary)
          && c.outcome.value.status == p.outcome.status
          && c.outcome.value.review == p.outcome.review && c.outcome.value.allDone == p.outcome.allDone)
    && (Erred(p) ==> c.error == p.error)
    && (Unusable(p) && p.error.None? ==> c.error.Some? && c.error.value != "")
    && (!Erred(p) && !Unusable(p) ==> c.error == r.error)
  }

  lemma SettledAnswers(r: Record, p: Report)
    ensures Answered(r, Settled(r, p), p)
  {
    if p.outcome.RawOutcome? {
      TrimStrips(p.outcome.summary);
    }
  }

  predicate RunsAs(rs: seq<Record>, id: string) {
    exists i :: 0 <= i < |rs| && rs[i].id == id && rs[i].status == Running
  }

  /** In a lawful state a report is taken exactly from a running child, and changes that child's record alone. */
  lemma RecordExact(s: EngineState, id: string, p: Report)
    requires Inv(s)
    ensures RecordOutcome(s, id, p).Success?
       <==> RunsAs(s.records, id)
    ensures RecordOutcome(s, id, p).Success? ==>
              var t := RecordOutcome(s, id, p).value;
              && t == s.(records := t.records) && |t.records| == |s.records|
              && forall i :: 0 <= i < |s.records| ==>
                   if s.records[i].id == id then Answered(s.records[i], t.records[i], p)
                   else t.records[i] == s.records[i]
  {
    CompiledIsStructured(s);
    var rs, k := s.records, FindId(s.records, id);
    if i :| 0 <= i < |rs| && rs[i].id == id && rs[i].status == Running {
      RunningInBatch(s, i);
      SameId(rs, i, k, id);
    }
    if RecordOutcome(s, id, p).Success? {
      RecordChanges(s, id, p);
    }
  }

  lemma RecordChanges(s: EngineState, id: string, p: Report)
    requires Structured(s.records) && RecordOutcome(s, id, p).Success?
    ensures var t := RecordOutcome(s, id, p).value;
            && t == s.(records := t.records) && |t.records| == |s.records|
            && forall i :: 0 <= i < |s.records| ==>
                 if s.records[i].id == id then Answered(s.records[i], t.records[i], p)
                 else t.records[i] == s.records[i]
  {
    var rs, k := s.records, FindId(s.records, id);
    SettledAnswers(rs[k], p);
    forall i | 0 <= i < |rs| ensures rs[i].id == id ==> i == k {
      OnePlace(rs, i, k);
    }
  }

  lemma SameId(rs: seq<Record>, i: nat, k: nat, id: string)
    requires Structured(rs) && i < |rs| && rs[i].id == id && k <= |rs| && (k < |rs| ==> rs[k].id == id)
    requires forall j :: 0 <= j < k ==> rs[j].id != id
    ensures i == k
  {
    if k < |rs| {
      OnePlace(rs, i, k);
    }
  }

  lemma OnePlace(rs: seq<Record>, i: nat, k: nat)
    requires Structured(rs) && i < |rs| && k < |rs|
    ensures rs[i].id == rs[k].id ==> i == k
  {
    if i < k {
      assert Related(rs[i], rs[k]);
    } else if k < i {
      assert Related(rs[k], rs[i]);
    }
  }

  lemma RunningInBatch(s: EngineState, i: nat)
    requires Inv(s) && i < |s.records| && s.records[i].status == Running
    ensures s.status == StateRunning && InBatch(s.records[i], s.activeBatch)
  {
    CompiledIsStructured(s);
    var lo, hi := Located(s);
    RecordsAccepted(s, lo, hi);
    assert AcceptsRecord(s, s.records[i]);
  }

  // ---- One report from every running child ----

  predicate ReportFor(reports: seq<ChildReport>, id: string) {
    exists j :: 0 <= j < |reports| && reports[j].id == id
  }

  /** Each running child reports once, and nobody else does. */
  predicate OneEach(s: EngineState, reports: seq<ChildReport>) {
    && (forall j, k :: 0 <= j < k < |reports| ==> reports[j].id != reports[k].id)
    && (forall j :: 0 <= j < |reports| ==> RunsAs(s.records, reports[j].id))
    && (forall i :: 0 <= i < |s.records| && s.records[i].status == Running ==> ReportFor(reports, s.records[i].id))
  }

  /** Every record is answered by its own report, or as it was. */
  predicate AllAnswered(rs: seq<Record>, c: seq<Record>, reports: seq<ChildReport>) {
    && |c| == |rs|
    && (forall i, j :: 0 <= i < |rs| && 0 <= j < |reports| && reports[j].id == rs[i].id ==>
          Answered(rs[i], c[i], reports[j].report))
    && (forall i :: 0 <= i < |rs| && !ReportFor(reports, rs[i].id) ==> c[i] == rs[i])
  }

  lemma {:induction false} CommitAnswers(s: EngineState, reports: seq<ChildReport>)
    requires Inv(s) && OneEach(s, reports)
    ensures Commit(s, reports).Success?
    ensures var t := Commit(s, reports).value;
            && Inv(t) && t == s.(records := t.records) && AllAnswered(s.records, t.records, reports)
    decreases |reports|
  {
    if reports != [] {
      var first, rest := reports[0], reports[1..];
      RecordExact(s, first.id, first.report);
      RecordKeeps(s, first.id, first.report);
      var t := RecordOutcome(s, first.id, first.report).value;
      OthersReport(s, t, reports);
      CommitAnswers(t, rest);
      assert Commit(s, reports) == Commit(t, rest);
      AnsweredJoin(s.records, t.records, Commit(t, rest).value.records, reports);
    }
  }

  lemma OthersReport(s: EngineState, t: EngineState, reports: seq<ChildReport>)
    requires OneEach(s, reports) && reports != [] && |t.records| == |s.records|
    requires forall i :: 0 <= i < |s.records| ==>
               if s.records[i].id == reports[0].id then Answered(s.records[i], t.records[i], reports[0].report)
               else t.records[i] == s.records[i]
    ensures OneEach(t, reports[1..])
  {
    var rest := reports[1..];
    forall j | 0 <= j < |rest| ensures RunsAs(t.records, rest[j].id) {
      assert rest[j] == reports[j + 1] && RunsAs(s.records, rest[j].id);
      var i :| 0 <= i < |s.records| && s.records[i].id == rest[j].id && s.records[i].status == Running;
      assert t.records[i] == s.records[i];
    }
    forall i | 0 <= i < |t.records| && t.records[i].status == Running
      ensures ReportFor(rest, t.records[i].id)
    {
      if s.records[i].id != reports[0].id {
        assert ReportFor(reports, s.records[i].id);
        var j :| 0 <= j < |reports| && reports[j].id == s.records[i].id;
        assert rest[j - 1] == reports[j];
      }
    }
  }

  lemma AnsweredJoin(rs: seq<Record>, mid: seq<Record>, c: seq<Record>, reports: seq<ChildReport>)
    requires reports != [] && |mid| == |rs|
    requires forall j, k :: 0 <= j < k < |reports| ==> reports[j].id != reports[k].id
    requires forall i :: 0 <= i < |rs| ==>
               if rs[i].id == reports[0].id then Answered(rs[i], mid[i], reports[0].report) else mid[i] == rs[i]
    requires AllAnswered(mid, c, reports[1..])
    ensures AllAnswered(rs, c, reports)
  {
    var rest := reports[1..];
    forall i | 0 <= i < |rs| ensures mid[i].id == rs[i].id {
      if rs[i].id == reports[0].id {
        TopologyFields(mid[i], rs[i]);
      }
    }
    forall i, j | 0 <= i < |rs| && 0 <= j < |reports| && reports[j].id == rs[i].id
      ensures Answered(rs[i], c[i], reports[j].report)
    {
      if j == 0 {
        assert !ReportFor(rest, mid[i].id);
      } else {
        assert rest[j - 1] == reports[j];
      }
    }
    forall i | 0 <= i < |rs| && !ReportFor(reports, rs[i].id) ensures c[i] == rs[i] {
      assert reports[0].id != rs[i].id;
      assert !ReportFor(rest, mid[i].id);
    }
  }

  // ---- The barrier ----

  predicate SomeIn(rs: seq<Record>, batch: Option<string>, status: RecordStatus) {
    exists i :: 0 <= i < |rs| && InBatch(rs[i], batch) && rs[i].status == status
  }

  predicate SomeFails(s: EngineState, reports: seq<ChildReport>) {
    SomeIn(s.records, s.activeBatch, Blocked) || exists j :: 0 <= j < |reports| && Fails(reports[j].report)
  }

  predicate SomeAsks(s: EngineState, reports: seq<ChildReport>) {
    SomeIn(s.records, s.activeBatch, Waiting) || exists j :: 0 <= j < |reports| && Asks(reports[j].report)
  }

  /** The pause names the first member of the batch, in declaration order, that has this status. */
  predicate PausedOn(t: EngineState, batch: Option<string>, kind: PauseKind, status: RecordStatus) {
    && PausedFor(t, kind) && t.activeBatch.None?
    && exists i :: 0 <= i < |t.records| && InBatch(t.records[i], batch) && t.records[i].status == status
         && (forall k :: 0 <= k < i && InBatch(t.records[k], batch) ==> t.records[k].status != status)
         && t.pause.value.message
            == if status == Blocked && t.records[i].error.Some? then t.records[i].error.value
               else if t.records[i].outcome.Some? then t.records[i].outcome.value.summary else ""
  }

  /** The batch is behind: all of it completed, and nothing of it asks for anything. */
  predicate Crossed(s: EngineState, t: EngineState, reports: seq<ChildReport>) {
    && t.activeBatch.None? && t.status != StateRunning && !PausedFor(t, ReportPause)
    && !(s.mode == Some(Semi) && t.status == StateReady) && (PausedFor(t, SemiPause) ==> s.mode == Some(Semi))
    && |t.records| == |s.records|
    && forall i :: 0 <= i < |s.records| && InBatch(s.records[i], s.activeBatch) ==>
         && t.records[i].status == Completed
         && (!ReportFor(reports, s.records[i].id) ==> t.records[i] == s.records[i])
         && forall j :: 0 <= j < |reports| && reports[j].id == s.records[i].id ==>
              Answered(s.records[i], t.records[i], reports[j].report)
  }

  lemma NoneLeft(s: EngineState, u: EngineState, reports: seq<ChildReport>)
    requires OneEach(s, reports) && AllAnswered(s.records, u.records, reports)
    ensures forall i :: 0 <= i < |u.records| ==> u.records[i].status != Running
  {
    forall i | 0 <= i < |u.records| ensures u.records[i].status != Running {
      if ReportFor(reports, s.records[i].id) {
        var j :| 0 <= j < |reports| && reports[j].id == s.records[i].id;
        assert Answered(s.records[i], u.records[i], reports[j].report);
      }
    }
  }

  /** What the batch shows after the reports is what they said, or what its members showed before. */
  lemma Shown(s: EngineState, u: EngineState, reports: seq<ChildReport>)
    requires Inv(s) && OneEach(s, reports) && AllAnswered(s.records, u.records, reports)
    ensures SomeIn(u.records, s.activeBatch, Blocked) <==> SomeFails(s, reports)
    ensures SomeIn(u.records, s.activeBatch, Waiting) <==> SomeAsks(s, reports)
  {
    forall i | 0 <= i < |s.records|
      ensures ReportFor(reports, s.records[i].id) ==>
                s.records[i].status == Running && InBatch(s.records[i], s.activeBatch)
    {
      Reporting(s, reports, i);
    }
    SameFields(s.records, u.records) by {
      AnsweredTopology(s.records, u.records, reports);
    }
    forall j | 0 <= j < |reports|
      ensures Fails(reports[j].report) ==> SomeIn(u.records, s.activeBatch, Blocked)
      ensures Asks(reports[j].report) ==> SomeIn(u.records, s.activeBatch, Waiting)
    {
      var i :| 0 <= i < |s.records| && s.records[i].id == reports[j].id && s.records[i].status == Running;
      RunningInBatch(s, i);
      assert Answered(s.records[i], u.records[i], reports[j].report);
    }
    ShownBefore(s, u, reports, Blocked);
    ShownBefore(s, u, reports, Waiting);
  }

  lemma Reporting(s: EngineState, reports: seq<ChildReport>, i: nat)
    requires Inv(s) && OneEach(s, reports) && i < |s.records|
    ensures ReportFor(reports, s.records[i].id) ==>
              s.records[i].status == Running && InBatch(s.records[i], s.activeBatch)
  {
    CompiledIsStructured(s);
    if ReportFor(reports, s.records[i].id) {
      var j :| 0 <= j < |reports| && reports[j].id == s.records[i].id;
      var k :| 0 <= k < |s.records| && s.records[k].id == reports[j].id && s.records[k].status == Running;
      OnePlace(s.records, i, k);
      RunningInBatch(s, i);
    }
  }

  lemma AnsweredTopology(rs: seq<Record>, c: seq<Record>, reports: seq<ChildReport>)
    requires AllAnswered(rs, c, reports)
    ensures SameTopology(rs, c)
  {
    forall i | 0 <= i < |rs| ensures Topology(rs[i]) == Topology(c[i]) {
      if ReportFor(reports, rs[i].id) {
        var j :| 0 <= j < |reports| && reports[j].id == rs[i].id;
        assert Answered(rs[i], c[i], reports[j].report);
      }
    }
  }

  lemma ShownBefore(s: EngineState, u: EngineState, reports: seq<ChildReport>, status: RecordStatus)
    requires AllAnswered(s.records, u.records, reports) && status in {Blocked, Waiting}
    requires forall i :: 0 <= i < |s.records| && ReportFor(reports, s.records[i].id) ==> s.records[i].status == Running
    requires forall i :: 0 <= i < |s.records| ==> u.records[i].batch == s.records[i].batch
    ensures SomeIn(s.records, s.activeBatch, status) ==> SomeIn(u.records, s.activeBatch, status)
    ensures SomeIn(u.records, s.activeBatch, status) ==>
              || SomeIn(s.records, s.activeBatch, status)
              || exists j :: 0 <= j < |reports|
                             && if status == Blocked then Fails(reports[j].report) else Asks(reports[j].report)
  {
    if i :| 0 <= i < |s.records| && InBatch(s.records[i], s.activeBatch) && s.records[i].status == status {
      assert u.records[i] == s.records[i];
    }
    if i :| 0 <= i < |u.records| && InBatch(u.records[i], s.activeBatch) && u.records[i].status == status {
      if ReportFor(reports, s.records[i].id) {
        var j :| 0 <= j < |reports| && reports[j].id == s.records[i].id;
        assert Answered(s.records[i], u.records[i], reports[j].report);
      }
    }
  }

  /** A barrier with a failed or asking member pauses on the first of them. */
  lemma PausesOn(u: EngineState)
    requires u.status == StateRunning && HasControlData(u.records)
    requires forall i :: 0 <= i < |u.records| ==> u.records[i].status != Running
    ensures SettleBatch(u).Success?
    ensures var t := SettleBatch(u).value;
            && (SomeIn(u.records, u.activeBatch, Blocked) ==>
                  t.records == u.records && t.mode == u.mode && PausedOn(t, u.activeBatch, FailurePause, Blocked))
            && (!SomeIn(u.records, u.activeBatch, Blocked) && SomeIn(u.records, u.activeBatch, Waiting) ==>
                  t.records == u.records && t.mode == u.mode && PausedOn(t, u.activeBatch, ReportPause, Waiting))
  {
    FirstShown(u.records, u.activeBatch, Blocked);
    FirstShown(u.records, u.activeBatch, Waiting);
  }

  lemma FirstShown(rs: seq<Record>, batch: Option<string>, status: RecordStatus)
    ensures FirstIn(rs, batch, status, 0) < |rs| <==> SomeIn(rs, batch, status)
  {
  }

  /** Otherwise the whole batch is completed, and stays so across the barrier. */
  lemma BarrierCrossed(u: EngineState)
    requires Inv(u) && u.status == StateRunning && HasControlData(u.records)
    requires forall i :: 0 <= i < |u.records| ==> u.records[i].status != Running
    requires !SomeIn(u.records, u.activeBatch, Blocked) && !SomeIn(u.records, u.activeBatch, Waiting)
    ensures SettleBatch(u).Success? && Inv(SettleBatch(u).value)
    ensures var t := SettleBatch(u).value;
            && t.mode == u.mode && |t.records| == |u.records| && t.status != StateRunning && t.activeBatch.None?
            && !PausedFor(t, ReportPause) && !(u.mode == Some(Semi) && t.status == StateReady)
            && (PausedFor(t, SemiPause) ==> u.mode == Some(Semi))
            && forall i :: 0 <= i < |u.records| && InBatch(u.records[i], u.activeBatch) ==>
                 u.records[i].status == Completed && t.records[i] == u.records[i]
  {
    var lo, hi := Located(u);
    BatchCompleted(u, lo, hi);
    SettlePassed(u, lo, hi);
    SettleIsAdvance(u, lo, hi);
    if PausedFor(SettleBatch(u).value, SemiPause) {
      SemiOnly(SettleBatch(u).value);
    }
    forall i | 0 <= i < |u.records| && InBatch(u.records[i], u.activeBatch)
      ensures SettleBatch(u).value.records[i] == u.records[i]
    {
      assert Done(u.records[i]);
    }
  }

  lemma BatchCompleted(u: EngineState, lo: nat, hi: nat)
    requires FrontierAt(u, lo, hi) && u.status == StateRunning
    requires forall i :: 0 <= i < |u.records| ==> u.records[i].status != Running
    requires !SomeIn(u.records, u.activeBatch, Blocked) && !SomeIn(u.records, u.activeBatch, Waiting)
    ensures Members(u.records, lo, hi, {Completed})
    ensures forall i :: 0 <= i < |u.records| && InBatch(u.records[i], u.activeBatch) ==>
              u.records[i].status == Completed
  {
    forall i | lo <= i < hi ensures u.records[i].status in {Completed} {
      assert InBatch(u.records[i], u.activeBatch);
    }
  }

  lemma SemiOnly(t: EngineState)
    requires Inv(t) && PausedFor(t, SemiPause)
    ensures t.mode == Some(Semi)
  {
    var lo, hi := Located(t);
  }

  lemma CrossedBy(s: EngineState, u: EngineState, t: EngineState, reports: seq<ChildReport>)
    requires AllAnswered(s.records, u.records, reports) && |t.records| == |u.records|
    requires forall i :: 0 <= i < |s.records| ==> u.records[i].batch == s.records[i].batch
    requires forall i :: 0 <= i < |u.records| && InBatch(u.records[i], s.activeBatch) ==>
               u.records[i].status == Completed && t.records[i] == u.records[i]
    requires t.activeBatch.None? && t.status != StateRunning && !PausedFor(t, ReportPause)
    requires !(s.mode == Some(Semi) && t.status == StateReady) && (PausedFor(t, SemiPause) ==> s.mode == Some(Semi))
    requires forall i :: 0 <= i < |t.records| ==> t.records[i].batch == u.records[i].batch
    ensures Crossed(s, t, reports)
    ensures !PausedOn(t, s.activeBatch, FailurePause, Blocked) && !PausedOn(t, s.activeBatch, ReportPause, Waiting)
  {
    forall i | 0 <= i < |s.records| && InBatch(s.records[i], s.activeBatch)
      ensures t.records[i].status == Completed
      ensures !ReportFor(reports, s.records[i].id) ==> t.records[i] == s.records[i]
      ensures forall j :: 0 <= j < |reports| && reports[j].id == s.records[i].id ==>
                Answered(s.records[i], t.records[i], reports[j].report)
    {
      assert InBatch(u.records[i], s.activeBatch);
    }
  }

  /** The three ways a batch can end, each with its condition on the reports. */
  predicate EndsAs(s: EngineState, t: EngineState, reports: seq<ChildReport>) {
    && t.mode == s.mode && (Crossed(s, t, reports) || AllAnswered(s.records, t.records, reports))
    && (PausedOn(t, s.activeBatch, FailurePause, Blocked) <==> SomeFails(s, reports))
    && (PausedOn(t, s.activeBatch, ReportPause, Waiting) <==> !SomeFails(s, reports) && SomeAsks(s, reports))
    && (Crossed(s, t, reports) <==> !SomeFails(s, reports) && !SomeAsks(s, reports))
  }

  /**
   * How a batch ends once every running child has reported, in whatever order: it pauses on a failure if and only if a
   * report failed or a member had failed before; else on a question if and only if a report or a member asks; and else
   * the barrier is crossed, with every member completed by its report.
   */
  lemma BatchEnds(s: EngineState, reports: seq<ChildReport>)
    requires Inv(s) && s.status == StateRunning && OneEach(s, reports)
    ensures CommitAndSettle(s, reports).Success?
    ensures EndsAs(s, CommitAndSettle(s, reports).value, reports)
  {
    CommitAnswers(s, reports);
    var u := Commit(s, reports).value;
    CompiledIsStructured(u);
    BatchShown(s, u, reports);
    SettledEnds(s, u, reports);
  }

  lemma BatchShown(s: EngineState, u: EngineState, reports: seq<ChildReport>)
    requires Inv(s) && OneEach(s, reports) && AllAnswered(s.records, u.records, reports)
    ensures forall i :: 0 <= i < |u.records| ==> u.records[i].status != Running
    ensures forall i :: 0 <= i < |s.records| ==> u.records[i].batch == s.records[i].batch
    ensures SomeIn(u.records, s.activeBatch, Blocked) <==> SomeFails(s, reports)
    ensures SomeIn(u.records, s.activeBatch, Waiting) <==> SomeAsks(s, reports)
  {
    NoneLeft(s, u, reports);
    Shown(s, u, reports);
    AnsweredTopology(s.records, u.records, reports);
    SameFields(s.records, u.records);
  }

  lemma SettledEnds(s: EngineState, u: EngineState, reports: seq<ChildReport>)
    requires Inv(u) && u.status == StateRunning && HasControlData(u.records) && u == s.(records := u.records)
    requires AllAnswered(s.records, u.records, reports)
    requires forall i :: 0 <= i < |u.records| ==> u.records[i].status != Running
    requires forall i :: 0 <= i < |s.records| ==> u.records[i].batch == s.records[i].batch
    requires SomeIn(u.records, s.activeBatch, Blocked) <==> SomeFails(s, reports)
    requires SomeIn(u.records, s.activeBatch, Waiting) <==> SomeAsks(s, reports)
    ensures SettleBatch(u).Success?
    ensures EndsAs(s, SettleBatch(u).value, reports)
  {
    if SomeFails(s, reports) || SomeAsks(s, reports) {
      PauseEnds(s, u, reports);
    } else {
      CrossEnds(s, u, reports);
    }
  }

  lemma CrossEnds(s: EngineState, u: EngineState, reports: seq<ChildReport>)
    requires Inv(u) && u.status == StateRunning && HasControlData(u.records) && u == s.(records := u.records)
    requires AllAnswered(s.records, u.records, reports)
    requires forall i :: 0 <= i < |u.records| ==> u.records[i].status != Running
    requires forall i :: 0 <= i < |s.records| ==> u.records[i].batch == s.records[i].batch
    requires !SomeIn(u.records, s.activeBatch, Blocked) && !SomeIn(u.records, s.activeBatch, Waiting)
    requires !SomeFails(s, reports) && !SomeAsks(s, reports)
    ensures SettleBatch(u).Success? && EndsAs(s, SettleBatch(u).value, reports)
  {
    BarrierCrossed(u);
    BarrierBatches(u);
    CrossedBy(s, u, SettleBatch(u).value, reports);
  }

  lemma BarrierBatches(u: EngineState)
    requires Inv(u) && HasControlData(u.records) && SettleBatch(u).Success?
    ensures var t := SettleBatch(u).value;
            |t.records| == |u.records| && forall i :: 0 <= i < |t.records| ==> t.records[i].batch == u.records[i].batch
  {
    SettleKeeps(u);
    SameFields(u.records, SettleBatch(u).value.records);
  }

  lemma PauseEnds(s: EngineState, u: EngineState, reports: seq<ChildReport>)
    requires u.status == StateRunning && HasControlData(u.records) && u == s.(records := u.records)
    requires AllAnswered(s.records, u.records, reports)
    requires forall i :: 0 <= i < |u.records| ==> u.records[i].status != Running
    requires forall i :: 0 <= i < |s.records| ==> u.records[i].batch == s.records[i].batch
    requires SomeIn(u.records, s.activeBatch, Blocked) <==> SomeFails(s, reports)
    requires SomeIn(u.records, s.activeBatch, Waiting) <==> SomeAsks(s, reports)
    requires SomeFails(s, reports) || SomeAsks(s, reports)
    ensures SettleBatch(u).Success? && EndsAs(s, SettleBatch(u).value, reports)
  {
    PausesOn(u);
    var t := SettleBatch(u).value;
    StillOpen(s, t, reports, if SomeFails(s, reports) then Blocked else Waiting);
  }

  lemma StillOpen(s: EngineState, t: EngineState, reports: seq<ChildReport>, status: RecordStatus)
    requires SomeIn(t.records, s.activeBatch, status) && status in {Blocked, Waiting} && |t.records| == |s.records|
    requires forall i :: 0 <= i < |s.records| ==> t.records[i].batch == s.records[i].batch
    ensures !Crossed(s, t, reports)
  {
    var i :| 0 <= i < |t.records| && InBatch(t.records[i], s.activeBatch) && t.records[i].status == status;
    assert InBatch(s.records[i], s.activeBatch);
  }

  // ---- Which loop a crossed barrier closes ----

  /** The record lies inside this iteration of this loop. */
  predicate Within(r: Record, id: string, iteration: Option<nat>) {
    exists x :: 0 <= x < |r.loops| && r.loops[x].id == id
                && (iteration.Some? ==> r.loops[x].iteration == iteration.value)
  }

  /** A reviewer's approval, or the implementor's allDone with no reviewer of the same iteration still to run. */
  predicate Clears(rs: seq<Record>, k: nat)
    requires k < |rs| && rs[k].loops != []
  {
    var scope := rs[k].loops[|rs[k].loops| - 1];
    && rs[k].outcome.Some?
    && (|| (rs[k].role == Some("reviewer") && rs[k].outcome.value.review == Some(Approved))
        || (&& rs[k].role == Some("implementor") && rs[k].outcome.value.allDone == Some(true)
            && forall j :: 0 <= j < |rs| && rs[j].role == Some("reviewer") && rs[j].status == Pending ==>
                 !Within(rs[j], scope.id, Some(scope.iteration))))
  }

  /** Nobody in the batch asks for changes, and a member of it, inside this loop, clears it. */
  ghost predicate ClearsLoop(rs: seq<Record>, batch: Option<string>, id: string) {
    && (forall k :: 0 <= k < |rs| && InBatch(rs[k], batch) && rs[k].outcome.Some? ==>
          rs[k].outcome.value.review != Some(ChangesRequested))
    && exists k :: ClearedBy(rs, batch, id, k)
  }

  predicate ClearedBy(rs: seq<Record>, batch: Option<string>, id: string, k: int) {
    && 0 <= k < |rs| && InBatch(rs[k], batch) && rs[k].loops != []
    && rs[k].loops[|rs[k].loops| - 1].id == id && Clears(rs, k)
  }

  /** The records a crossed barrier skips are the ones not started inside a loop that its batch has cleared. */
  lemma SkippedExactly(s: EngineState, i: nat)
    requires Inv(s) && s.status == StateRunning && HasControlData(s.records) && i < |s.records|
    requires forall k :: 0 <= k < |s.records| ==> s.records[k].status != Running
    requires !SomeIn(s.records, s.activeBatch, Blocked) && !SomeIn(s.records, s.activeBatch, Waiting)
    ensures SettleBatch(s).Success? && |SettleBatch(s).value.records| == |s.records|
    ensures s.records[i].status != Skipped && SettleBatch(s).value.records[i].status == Skipped
       <==> && s.records[i].status == Pending
            && exists x :: 0 <= x < |s.records[i].loops|
                           && ClearsLoop(s.records, s.activeBatch, s.records[i].loops[x].id)
  {
    CompiledIsStructured(s);
    var lo, hi := Located(s);
    BatchCompleted(s, lo, hi);
    SettledSkips(s, lo, hi, i);
    CloseLoopsDecides(s.records, lo, hi);
    ClosesRaw(s.records, lo, hi);
    if Closes(s.records, lo, hi) {
      assert InLoop(s.records[i], InnermostLoop(s.records[lo]).id) <==>
        exists x :: 0 <= x < |s.records[i].loops| && s.records[i].loops[x].id == InnermostLoop(s.records[lo]).id;
    }
  }

  /** Across the barrier only the closing of loops skips records. */
  lemma SettledSkips(s: EngineState, lo: nat, hi: nat, i: nat)
    requires Sound(s) && FrontierAt(s, lo, hi) && s.status == StateRunning && HasControlData(s.records)
    requires Members(s.records, lo, hi, {Completed}) && i < |s.records|
    ensures SettleBatch(s).Success? && |SettleBatch(s).value.records| == |s.records|
    ensures |CloseLoops(s.records, s.activeBatch)| == |s.records|
    ensures SettleBatch(s).value.records[i].status == Skipped
       <==> CloseLoops(s.records, s.activeBatch)[i].status == Skipped
  {
    var u := s.(activeBatch := None, records := CloseLoops(s.records, s.activeBatch));
    BarrierPassed(s, lo, hi);
    AdvanceKeeps(u, hi);
    SettleIsAdvance(s, lo, hi);
  }

  lemma ClosesRaw(rs: seq<Record>, lo: nat, hi: nat)
    requires Structured(rs) && SettledBatch(rs, lo, hi)
    ensures Closes(rs, lo, hi) <==> rs[lo].loops != [] && ClearsLoop(rs, Some(rs[lo].batch), InnermostLoop(rs[lo]).id)
    ensures forall id :: ClearsLoop(rs, Some(rs[lo].batch), id) ==> rs[lo].loops != [] && id == InnermostLoop(rs[lo]).id
  {
    OneLoop(rs, lo, hi);
    MembersShareLoops(rs, lo, hi);
    if rs[lo].loops != [] {
      RequestsRaw(rs, lo, hi);
      DecidesFromStart(rs, lo, hi, InnermostLoop(rs[lo]));
      DecidesRaw(rs, lo, hi, InnermostLoop(rs[lo]));
    }
  }

  lemma OneLoop(rs: seq<Record>, lo: nat, hi: nat)
    requires Structured(rs) && lo < |rs| && IsBatch(rs, lo, hi)
    ensures forall id :: ClearsLoop(rs, Some(rs[lo].batch), id) ==> rs[lo].loops != [] && id == InnermostLoop(rs[lo]).id
  {
    MembersShareLoops(rs, lo, hi);
  }

  lemma DecidesRaw(rs: seq<Record>, lo: nat, hi: nat, scope: LoopScope)
    requires Structured(rs) && lo < |rs| && IsBatch(rs, lo, hi) && rs[lo].loops != [] && scope == InnermostLoop(rs[lo])
    requires forall k :: lo <= k < hi ==> rs[k].loops == rs[lo].loops
    ensures Decides(rs, 0, lo, hi, scope)
       <==> exists k :: ClearedBy(rs, Some(rs[lo].batch), scope.id, k)
  {
    if Decides(rs, 0, lo, hi, scope) {
      var k :| 0 <= k < hi && lo <= k && MemberDecides(rs, k, scope);
      ClearsRaw(rs, k);
      assert ClearedBy(rs, Some(rs[lo].batch), scope.id, k);
    }
    if k :| ClearedBy(rs, Some(rs[lo].batch), scope.id, k) {
      ClearsRaw(rs, k);
      assert lo <= k < hi && MemberDecides(rs, k, scope);
    }
  }

  lemma RequestsRaw(rs: seq<Record>, lo: nat, hi: nat)
    requires lo < |rs| && IsBatch(rs, lo, hi)
    ensures SomeRequestsChanges(rs, lo, hi) <==>
              !(forall k :: 0 <= k < |rs| && InBatch(rs[k], Some(rs[lo].batch)) && rs[k].outcome.Some? ==>
                  rs[k].outcome.value.review != Some(ChangesRequested))
  {
    RequestsInBatch(rs, lo, hi);
  }

  lemma ClearsRaw(rs: seq<Record>, k: nat)
    requires Structured(rs) && k < |rs| && rs[k].loops != []
    ensures Clears(rs, k) <==> MemberDecides(rs, k, InnermostLoop(rs[k]))
  {
    var scope := InnermostLoop(rs[k]);
    forall j | 0 <= j < |rs|
      ensures AwaitsReview(rs[j], scope) <==>
                && rs[j].role == Some("reviewer") && rs[j].status == Pending
                && Within(rs[j], scope.id, Some(scope.iteration))
    {
      assert WellShaped(rs[j]);
    }
  }

  // ---- Answers ----

  /** The answer is this lower-case word, up to letter case and outer white space. */
  predicate Says(answer: string, word: string) {
    exists i, j :: 0 <= i <= j <= |answer| && AllSpace(answer[..i]) && AllSpace(answer[j..])
                   && SameLetters(answer[i..j], word)
  }

  predicate SameLetters(text: string, word: string) {
    && |text| == |word|
    && forall k :: 0 <= k < |word| ==> text[k] == word[k] || text[k] as int == word[k] as int - 32
  }

  predicate LowerWord(word: string) {
    word != "" && forall k :: 0 <= k < |word| ==> 'a' <= word[k] <= 'z'
  }

  lemma SaidIs(answer: string, word: string)
    requires LowerWord(word) && Says(answer, word)
    ensures Lower(Trim(answer)) == word && !IsBlank(answer)
  {
    var i, j :| 0 <= i <= j <= |answer| && AllSpace(answer[..i]) && AllSpace(answer[j..])
                && SameLetters(answer[i..j], word);
    LettersStripped(answer[i..j], word);
    assert Strips(answer, answer[i..j]);
    StripsOnly(answer, answer[i..j]);
  }

  lemma LettersStripped(text: string, word: string)
    requires LowerWord(word) && SameLetters(text, word)
    ensures text != "" && Trimmed(text) && Lower(text) == word
  {
  }

  lemma SaysExact(answer: string, word: string)
    requires LowerWord(word)
    ensures Lower(Trim(answer)) == word <==> Says(answer, word)
    ensures Says(answer, word) ==> !IsBlank(answer)
  {
    TrimStrips(answer);
    if Says(answer, word) {
      SaidIs(answer, word);
    }
    if Lower(Trim(answer)) == word {
      var i, j :| 0 <= i <= j <= |answer| && Trim(answer) == answer[i..j]
                  && AllSpace(answer[..i]) && AllSpace(answer[j..]);
      forall k | 0 <= k < |word| ensures Trim(answer)[k] == word[k] || Trim(answer)[k] as int == word[k] as int - 32 {
        assert Lower(Trim(answer))[k] == word[k];
      }
      assert SameLetters(answer[i..j], word);
    }
  }

  /** The only records advancing changes are control records that were pending. */
  predicate OnlyControl(a: seq<Record>, b: seq<Record>) {
    && |a| == |b|
    && forall i :: 0 <= i < |a| ==>
         b[i] == a[i] || (a[i].status == Pending && a[i].kind != Agent && b[i] == a[i].(status := b[i].status))
  }

  /** Advancing touches control records only, and a checkpoint it stops at asks with its own prompt. */
  lemma AdvanceControl(s: EngineState)
    requires HasControlData(s.records)
    ensures OnlyControl(s.records, Advance(s).records) && Advance(s).mode == s.mode
    ensures PausedFor(Advance(s), HumanPause) ==>
              exists k :: 0 <= k < |s.records| && s.records[k].kind == Human && Advance(s).records[k].status == Waiting
                          && s.records[k].prompt == Some(Advance(s).pause.value.message)
  {
  }

  /** The answer is one that this pause takes. */
  predicate Takes(s: EngineState, answer: string) {
    && s.status == StateWaiting
    && (|| (PausedFor(s, ModePause) && (Says(answer, "semi") || Says(answer, "auto")))
        || ((PausedFor(s, HumanPause) || PausedFor(s, SemiPause)) && !AllSpace(answer)))
  }

  /** "semi" and "auto" choose the mode; a checkpoint keeps its answer word for word; no other record is touched. */
  predicate Answers(s: EngineState, t: EngineState, answer: string) {
    if PausedFor(s, ModePause) then
      t.mode == Some(if Says(answer, "semi") then Semi else Auto) && OnlyControl(s.records, t.records)
    else if PausedFor(s, HumanPause) then
      && t.mode == s.mode
      && exists k :: 0 <= k < |s.records| && s.records[k].kind == Human && s.records[k].status == Waiting
           && OnlyControl(s.records[k := s.records[k].(status := Completed, answer := Some(answer))], t.records)
    else
      t.mode == s.mode && OnlyControl(s.records, t.records)
  }

  lemma ModeAnswer(s: EngineState, answer: string)
    requires HasControlData(s.records) && s.status == StateWaiting && PausedFor(s, ModePause)
    ensures AnswerCheckpoint(s, answer).Success? <==> Takes(s, answer)
    ensures AnswerCheckpoint(s, answer).Success? ==> Answers(s, AnswerCheckpoint(s, answer).value, answer)
  {
    SaysExact(answer, "semi");
    SaysExact(answer, "auto");
    AdvanceControl(s.(mode := Some(Semi)));
    AdvanceControl(s.(mode := Some(Auto)));
  }

  lemma HumanAnswer(s: EngineState, answer: string)
    requires Inv(s) && HasControlData(s.records) && s.status == StateWaiting && PausedFor(s, HumanPause)
    ensures AnswerCheckpoint(s, answer).Success? <==> Takes(s, answer)
    ensures AnswerCheckpoint(s, answer).Success? ==> Answers(s, AnswerCheckpoint(s, answer).value, answer)
  {
    TrimStrips(answer);
    var lo, hi := HumanPlace(s);
    AnsweredControl(s.records, lo, answer);
    AdvanceControl(s.(records := s.records[lo := s.records[lo].(status := Completed, answer := Some(answer))]));
  }

  /** Which answers are accepted at which pause, and exactly what an accepted one does. */
  lemma AnswerExact(s: EngineState, answer: string)
    requires Inv(s) && HasControlData(s.records)
    ensures AnswerCheckpoint(s, answer).Success? <==> Takes(s, answer)
    ensures AnswerCheckpoint(s, answer).Success? ==> Answers(s, AnswerCheckpoint(s, answer).value, answer)
  {
    if s.status == StateWaiting && PausedFor(s, ModePause) {
      ModeAnswer(s, answer);
    } else if s.status == StateWaiting && PausedFor(s, HumanPause) {
      HumanAnswer(s, answer);
    } else {
      OtherAnswer(s, answer);
    }
  }

  lemma OtherAnswer(s: EngineState, answer: string)
    requires HasControlData(s.records)
    requires s.status == StateWaiting ==> !PausedFor(s, ModePause) && !PausedFor(s, HumanPause)
    ensures AnswerCheckpoint(s, answer).Success? <==> Takes(s, answer)
    ensures AnswerCheckpoint(s, answer).Success? ==> Answers(s, AnswerCheckpoint(s, answer).value, answer)
  {
    TrimStrips(answer);
    AdvanceControl(s);
  }
}
