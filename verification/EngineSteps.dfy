/** Every engine transition preserves the invariant and leaves finished records alone. */
module EngineSteps {
  import opened Wrappers
  import opened Text
  import opened Workflows
  import opened Records
  import opened Compile
  import opened CompileProofs
  import opened Engine
  import opened EngineInvariant

  /** What a transition may do to the record list. */
  predicate Evolves(a: seq<Record>, b: seq<Record>) {
    KeepsDone(a, b) && NoNewPending(a, b)
  }

  lemma EvolvesTrans(a: seq<Record>, b: seq<Record>, c: seq<Record>)
    requires Evolves(a, b) && Evolves(b, c)
    ensures Evolves(a, c)
  {
    SameTopologyTrans(a, b, c);
    forall i | 0 <= i < |a| && Done(a[i])
      ensures c[i] == a[i]
    {
      assert b[i] == a[i];
    }
  }

  /** Changing one unfinished record in place. */
  lemma UpdateEvolves(rs: seq<Record>, k: nat, r: Record)
    requires k < |rs| && Topology(r) == Topology(rs[k]) && !Done(rs[k])
    requires r.status != Skipped && (r.status == Pending ==> rs[k].status == Pending)
    ensures Evolves(rs, rs[k := r]) && NoNewSkips(rs, rs[k := r])
  {
  }

  lemma UpdateLocal(rs: seq<Record>, k: nat, r: Record)
    requires k < |rs| && AllLocal(rs) && LocalOk(r)
    ensures AllLocal(rs[k := r])
  {
  }

  /** A batch stays uniform when a started member changes, or its only member does. */
  lemma UpdateUniform(rs: seq<Record>, k: nat, r: Record)
    requires k < |rs| && Uniform(rs) && r.batch == rs[k].batch && r.status != Pending
    requires rs[k].status != Pending || forall i :: 0 <= i < |rs| && i != k ==> rs[i].batch != rs[k].batch
    ensures Uniform(rs[k := r])
  {
    var c := rs[k := r];
    forall i, j | 0 <= i < |c| && 0 <= j < |c| && c[i].batch == c[j].batch && c[i].status == Pending
      ensures c[j].status == Pending
    {
      assert rs[i].status == Pending && rs[i].batch == rs[j].batch;
    }
  }

  // ---- advance ----

  predicate PassesOnly(rs: seq<Record>, k: nat)
    requires k <= |rs|
  {
    forall j :: 0 <= j < k && rs[j].status == Pending ==>
      rs[j].kind == LoopEnd && rs[j].loops != [] && InnermostLoop(rs[j]).iteration != InnermostLoop(rs[j]).max
  }

  /** Passing over control records finishes everything before `k` and changes nothing else. */
  lemma PassedOk(rs: seq<Record>, k: nat, m: nat)
    requires Structured(rs) && AllLocal(rs) && Uniform(rs)
    requires k <= |rs| && PassesOnly(rs, k)
    requires m <= |rs| && DoneBefore(rs, m) && OpenFrom(rs, m)
    ensures var p := Passed(rs, k);
            SameTopology(rs, p) && AllLocal(p) && Uniform(p) && Evolves(rs, p) && NoNewSkips(rs, p)
            && DoneBefore(p, k) && (forall i :: k <= i < |rs| ==> p[i] == rs[i])
  {
    var p := Passed(rs, k);
    forall i | 0 <= i < |rs|
      ensures Topology(p[i]) == Topology(rs[i]) && LocalOk(p[i])
    {
      assert LocalOk(rs[i]);
    }
    SameFields(rs, p);
    forall i, j | 0 <= i < |p| && 0 <= j < |p| && p[i].batch == p[j].batch && p[i].status == Pending
      ensures p[j].status == Pending
    {
      assert rs[i].status == Pending;
      assert rs[j].status == Pending;
      SameBatch(rs, i, j);
    }
  }

  lemma NoMateBefore(rs: seq<Record>, k: nat)
    requires Structured(rs) && Uniform(rs) && k < |rs| && rs[k].status == Pending && PassesOnly(rs, k)
    ensures forall i :: 0 <= i < k ==> rs[i].batch != rs[k].batch
  {
    forall i | 0 <= i < k
      ensures rs[i].batch != rs[k].batch
    {
      assert Related(rs[i], rs[k]);
    }
  }

  /** The state a barrier or an answer hands to advance. */
  predicate Resting(s: EngineState, m: nat) {
    && Compiled(s) && AllLocal(s.records) && Uniform(s.records) && Witnessed(s.records)
    && s.activeBatch.None?
    && !(s.command == "develop" && s.mode.None?)
    && m <= |s.records| && DoneBefore(s.records, m) && OpenFrom(s.records, m)
  }

  lemma FrontierFrom(rs: seq<Record>, p: seq<Record>, k: nat, m: nat)
    requires Structured(rs) && Uniform(rs) && k < |rs| && rs[k].status == Pending && PassesOnly(rs, k)
    requires m <= k && OpenFrom(rs, m)
    requires SameTopology(rs, p) && DoneBefore(p, k) && forall i :: k < i < |rs| ==> p[i] == rs[i]
    ensures Frontier(p, k, BatchEnd(p, k, k + 1))
  {
    NoMateBefore(rs, k);
    SameFields(rs, p);
    StructuredTransfer(rs, p);
    BatchAt(p, k);
  }

  /** A lawful record list with a located frontier is an invariant state. */
  lemma Assemble(s: EngineState, t: EngineState, lo: nat, hi: nat)
    requires Compiled(s) && t.workflow == s.workflow && t.command == s.command
    requires SameTopology(s.records, t.records)
    requires AllLocal(t.records) && Uniform(t.records) && Witnessed(t.records) && ModeOk(t)
    requires FrontierAt(t, lo, hi)
    ensures Inv(t)
  {
    CompiledKept(s, t);
  }

  lemma StopsAfter(rs: seq<Record>, k: nat, m: nat)
    requires k < |rs| && rs[k].status == Pending && m <= |rs| && DoneBefore(rs, m)
    ensures m <= k
  {
  }

  lemma AdvanceToEnd(s: EngineState, m: nat)
    requires Resting(s, m) && Structured(s.records) && HasControlData(s.records) && Halting(s.records, 0).AtEnd?
    ensures Inv(Advance(s))
    ensures Evolves(s.records, Advance(s).records) && NoNewSkips(s.records, Advance(s).records)
  {
    var n := |s.records|;
    PassedOk(s.records, n, m);
    WitnessedKept(s.records, Passed(s.records, n));
    assert FrontierAt(Advance(s), n, n);
    Assemble(s, Advance(s), n, n);
  }

  lemma AdvanceToAgent(s: EngineState, m: nat)
    requires Resting(s, m) && Structured(s.records) && HasControlData(s.records) && Halting(s.records, 0).AtAgent?
    ensures Inv(Advance(s))
    ensures Evolves(s.records, Advance(s).records) && NoNewSkips(s.records, Advance(s).records)
  {
    var k := Halting(s.records, 0).k;
    var p := Passed(s.records, k);
    StopsAfter(s.records, k, m);
    PassedOk(s.records, k, m);
    WitnessedKept(s.records, p);
    FrontierFrom(s.records, p, k, m);
    var hi := BatchEnd(p, k, k + 1);
    assert FrontierAt(Advance(s), k, hi);
    Assemble(s, Advance(s), k, hi);
  }

  /** The record list after stopping at control record `k`. */
  lemma StoppedRecords(rs: seq<Record>, q: seq<Record>, k: nat, m: nat)
    requires Structured(rs) && AllLocal(rs) && Uniform(rs) && Witnessed(rs)
    requires k < |rs| && rs[k].status == Pending && PassesOnly(rs, k)
    requires m <= |rs| && DoneBefore(rs, m) && OpenFrom(rs, m)
    requires || (rs[k].kind == Human && q == WithStatus(Passed(rs, k), k, Waiting))
             || (rs[k].kind == LoopEnd && rs[k].loops != []
                 && InnermostLoop(rs[k]).iteration == InnermostLoop(rs[k]).max
                 && q == WithStatus(Passed(rs, k), k, Blocked))
    ensures SameTopology(rs, q) && AllLocal(q) && Uniform(q) && Witnessed(q)
    ensures Evolves(rs, q) && NoNewSkips(rs, q)
    ensures Frontier(q, k, BatchEnd(q, k, k + 1))
  {
    var p := Passed(rs, k);
    StopsAfter(rs, k, m);
    PassedOk(rs, k, m);
    WitnessedKept(rs, p);
    StoppedOk(rs, p, q, k);
    FrontierFrom(rs, q, k, m);
  }

  lemma AdvanceToHuman(s: EngineState, m: nat)
    requires Resting(s, m) && Structured(s.records) && HasControlData(s.records)
    requires Halting(s.records, 0).AtHuman?
    ensures Inv(Advance(s))
    ensures Evolves(s.records, Advance(s).records) && NoNewSkips(s.records, Advance(s).records)
  {
    var t := Advance(s);
    var k := Halting(s.records, 0).k;
    StoppedRecords(s.records, t.records, k, m);
    HumanFrontier(s, t, k, BatchEnd(t.records, k, k + 1));
  }

  lemma HumanFrontier(s: EngineState, t: EngineState, lo: nat, hi: nat)
    requires Compiled(s) && t.workflow == s.workflow && t.command == s.command && t.mode == s.mode
    requires !(s.command == "develop" && s.mode.None?)
    requires SameTopology(s.records, t.records)
    requires AllLocal(t.records) && Uniform(t.records) && Witnessed(t.records)
    requires Frontier(t.records, lo, hi) && lo < |t.records|
    requires t.records[lo].kind == Human && t.records[lo].status == Waiting
    requires t.status == StateWaiting && PausedFor(t, HumanPause) && t.activeBatch.None?
    ensures Inv(t)
  {
    assert FrontierAt(t, lo, hi);
    Assemble(s, t, lo, hi);
  }

  lemma AdvanceToExhausted(s: EngineState, m: nat)
    requires Resting(s, m) && Structured(s.records) && HasControlData(s.records)
    requires Halting(s.records, 0).AtExhausted?
    ensures Inv(Advance(s))
    ensures Evolves(s.records, Advance(s).records) && NoNewSkips(s.records, Advance(s).records)
  {
    var t := Advance(s);
    var k := Halting(s.records, 0).k;
    StoppedRecords(s.records, t.records, k, m);
    ExhaustedFrontier(s, t, k, BatchEnd(t.records, k, k + 1));
  }

  lemma ExhaustedFrontier(s: EngineState, t: EngineState, lo: nat, hi: nat)
    requires Compiled(s) && t.workflow == s.workflow && t.command == s.command && t.mode == s.mode
    requires !(s.command == "develop" && s.mode.None?)
    requires SameTopology(s.records, t.records)
    requires AllLocal(t.records) && Uniform(t.records) && Witnessed(t.records)
    requires Frontier(t.records, lo, hi) && lo < |t.records|
    requires t.records[lo].kind == LoopEnd && t.records[lo].status == Blocked
    requires t.status == StateBlocked && PausedFor(t, FailurePause) && t.activeBatch.None?
    ensures Inv(t)
  {
    assert FrontierAt(t, lo, hi);
    Assemble(s, t, lo, hi);
  }

  lemma AdvanceKeeps(s: EngineState, m: nat)
    requires Resting(s, m) && HasControlData(s.records)
    ensures Inv(Advance(s))
    ensures Evolves(s.records, Advance(s).records) && NoNewSkips(s.records, Advance(s).records)
  {
    CompiledIsStructured(s);
    match Halting(s.records, 0)
    case AtEnd => AdvanceToEnd(s, m);
    case AtAgent(_) => AdvanceToAgent(s, m);
    case AtHuman(_) => AdvanceToHuman(s, m);
    case AtExhausted(_) => AdvanceToExhausted(s, m);
  }

  /** Stopping at a control record leaves a lawful record list. */
  lemma StoppedOk(rs: seq<Record>, p: seq<Record>, q: seq<Record>, k: nat)
    requires Structured(rs) && k < |rs| && Evolves(rs, p) && NoNewSkips(rs, p)
    requires AllLocal(p) && Uniform(p) && Witnessed(p)
    requires p[k] == rs[k] && rs[k].status == Pending
    requires || (rs[k].kind == Human && q == WithStatus(p, k, Waiting))
             || (rs[k].kind == LoopEnd && rs[k].loops != []
                 && InnermostLoop(rs[k]).iteration == InnermostLoop(rs[k]).max && q == WithStatus(p, k, Blocked))
    ensures SameTopology(rs, q) && AllLocal(q) && Uniform(q) && Witnessed(q)
    ensures Evolves(rs, q) && NoNewSkips(rs, q)
  {
    var r := q[k];
    StoppedRecord(p[k], r);
    StructuredTransfer(rs, p);
    AloneInBatch(p, k);
    UpdateEvolves(p, k, r);
    UpdateLocal(p, k, r);
    UpdateUniform(p, k, r);
    WitnessedKept(p, q);
    EvolvesTrans(rs, p, q);
  }

  lemma StoppedRecord(a: Record, r: Record)
    requires LocalOk(a) && a.status == Pending
    requires || (a.kind == Human && r == a.(status := Waiting))
             || (a.kind == LoopEnd && a.loops != []
                 && InnermostLoop(a).iteration == InnermostLoop(a).max && r == a.(status := Blocked))
    ensures LocalOk(r) && Topology(r) == Topology(a) && r.batch == a.batch
  {
  }

  lemma AloneInBatch(rs: seq<Record>, k: nat)
    requires Structured(rs) && k < |rs| && rs[k].kind != Agent
    ensures forall i :: 0 <= i < |rs| && i != k ==> rs[i].batch != rs[k].batch
  {
    forall i | 0 <= i < |rs| && i != k
      ensures rs[i].batch != rs[k].batch
    {
      if rs[i].batch == rs[k].batch {
        SameBatch(rs, i, k);
      }
    }
  }
}
