/** What compilation promises: exact budgets, the record count, and the structure of the identities. */
module CompileProofs {
  import opened Wrappers
  import opened Text
  import opened Workflows
  import opened Records
  import opened Compile

  // ---- Budgets: the traversal succeeds exactly on valid chains that fit ----

  predicate Fits(r: Result<nat, CompileError>, valid: bool, total: nat) {
    && (r.Success? <==> valid && total <= MAX_RECORDS)
    && (r.Success? ==> r.value == total)
  }

  lemma {:induction false} ExpandStepExact(step: ChainStep, depth: nat, used: nat)
    requires used <= MAX_RECORDS
    ensures Fits(ExpandStep(step, depth, used), ValidStep(step, depth), used + CountStep(step))
    decreases step, 0, 0
  {
    match step
    case LoopStep(max, body) =>
      if max.Whole? && 1 <= max.n <= MAX_RECORDS {
        ExpandLoopExact(body, depth, used, 1, max.n);
      }
    case _ =>
  }

  lemma {:induction false} ExpandStepsExact(steps: seq<ChainStep>, depth: nat, used: nat)
    requires used <= MAX_RECORDS
    ensures Fits(ExpandSteps(steps, depth, used), ValidSteps(steps, depth), used + Count(steps))
    decreases steps, 0, 0
  {
    if steps != [] {
      ExpandStepExact(steps[0], depth, used);
      var r := ExpandStep(steps[0], depth, used);
      if r.Success? {
        ExpandStepsExact(steps[1..], depth, r.value);
      }
    }
  }

  lemma {:induction false} ExpandExact(steps: seq<ChainStep>, depth: nat, used: nat)
    requires used <= MAX_RECORDS
    ensures Fits(Expand(steps, depth, used), ValidChain(steps, depth), used + Count(steps))
    decreases steps, 1, 0
  {
    ExpandStepsExact(steps, depth, used);
  }

  function Times(rounds: nat, each: nat): nat {
    rounds * each
  }

  lemma OneMore(rounds: nat, each: nat)
    ensures Times(rounds + 1, each) == each + Times(rounds, each) && Times(0, each) == 0
  {
  }

  lemma {:induction false} ExpandLoopExact(body: seq<ChainStep>, depth: nat, used: nat, iteration: nat, max: nat)
    requires used <= MAX_RECORDS && iteration <= max + 1
    ensures Fits(ExpandLoop(body, depth, used, iteration, max),
                 iteration > max || ValidChain(body, depth + 1),
                 used + Times(max + 1 - iteration, Count(body) + 1))
    decreases body, 2, max - iteration + 1
  {
    if iteration <= max {
      ExpandExact(body, depth + 1, used);
      OneMore(max - iteration, Count(body) + 1);
      var r := Expand(body, depth + 1, used);
      if r.Success? && Push(r.value, 1).Success? {
        ExpandLoopExact(body, depth, Push(r.value, 1).value, iteration + 1, max);
      }
    }
  }

  lemma {:induction false} EmitCount(steps: seq<ChainStep>, k: nat, path: string, loops: seq<LoopScope>)
    ensures |Emit(steps, k, path, loops)| == Count(steps)
    decreases steps, 0, 0
  {
    if steps != [] {
      EmitStepCount(steps[0], StepId(path, k), loops);
      EmitCount(steps[1..], k + 1, path, loops);
    }
  }

  lemma {:induction false} EmitStepCount(step: ChainStep, id: string, loops: seq<LoopScope>)
    ensures |EmitStep(step, id, loops)| == CountStep(step)
    decreases step, 0, 0
  {
    match step
    case LoopStep(max, body) =>
      if max.Whole? && max.n > 0 {
        EmitLoopCount(body, id, loops, 1, max.n);
      }
    case _ =>
  }

  lemma {:induction false} EmitLoopCount(
    body: seq<ChainStep>, id: string, loops: seq<LoopScope>, iteration: nat, max: nat)
    requires iteration <= max + 1
    ensures |EmitLoop(body, id, loops, iteration, max)| == Times(max + 1 - iteration, Count(body) + 1)
    decreases body, 1, max - iteration + 1
  {
    if iteration <= max {
      EmitCount(body, 0, IterationPath(id, iteration), loops + [LoopScope(id, iteration, max)]);
      EmitLoopCount(body, id, loops, iteration + 1, max);
      OneMore(max - iteration, Count(body) + 1);
    }
  }

  /** Compilation fails exactly on an unknown command, an invalid chain, or an exceeded budget. */
  lemma CompileExact(workflow: Workflow, command: string)
    ensures CompileWorkflow(workflow, command).Success? <==>
      && command in workflow.commands
      && ValidChain(workflow.commands[command].chain, 0)
      && Count(workflow.commands[command].chain) <= MAX_RECORDS
    ensures CompileWorkflow(workflow, command).Success? ==>
      |CompileWorkflow(workflow, command).value| == Count(workflow.commands[command].chain)
  {
    if command in workflow.commands {
      var chain := workflow.commands[command].chain;
      ExpandExact(chain, 0, 0);
      EmitCount(chain, 0, EncodeURIComponent(command), []);
    }
  }

  // ---- Placement: every identity below a step extends that step's own path ----

  /** `r` was emitted below index `n` of path prefix `q`, inside `loops`. */
  predicate At(r: Record, q: string, n: nat, loops: seq<LoopScope>) {
    && Rooted(r.id, q, n)
    && Rooted(r.batch, q, n)
    && loops <= r.loops
    && forall x :: |loops| <= x < |r.loops| ==> Rooted(r.loops[x].id, q, n)
  }

  ghost predicate AllAt(rs: seq<Record>, q: string, n: nat, loops: seq<LoopScope>) {
    forall i :: 0 <= i < |rs| ==> At(rs[i], q, n, loops)
  }

  /** `r` lies below some index from `k` on. */
  ghost predicate Below(r: Record, q: string, k: nat, loops: seq<LoopScope>) {
    exists n: nat :: k <= n && At(r, q, n, loops)
  }

  ghost predicate AllFrom(rs: seq<Record>, q: string, k: nat, loops: seq<LoopScope>) {
    forall i :: 0 <= i < |rs| ==> Below(rs[i], q, k, loops)
  }

  /** The enclosing scopes are nested and shorter than anything emitted below `q`. */
  predicate Enclosing(loops: seq<LoopScope>, q: string) {
    && Nested(loops)
    && (forall x :: 0 <= x < |loops| ==> |loops[x].id| < |q|)
    && (forall x :: 0 <= x < |loops| ==> 1 <= loops[x].iteration <= loops[x].max)
  }

  lemma PrefixScopesAgree(a: seq<LoopScope>, b: seq<LoopScope>)
    requires a <= b && Nested(b)
    ensures ScopesAgree(a, b) && ScopesAgree(b, a)
  {
  }

  lemma SiblingsRelated(a: Record, b: Record, q: string, m: nat, n: nat, loops: seq<LoopScope>)
    requires At(a, q, m, loops) && At(b, q, n, loops) && m != n
    requires Enclosing(loops, q)
    ensures Related(a, b) && Related(b, a) && a.batch != b.batch
  {
    if a.id == b.id {
      RootedSame(a.id, q, m, n);
    }
    if a.batch == b.batch {
      RootedSame(a.batch, q, m, n);
    }
    forall x, y | 0 <= x < |a.loops| && 0 <= y < |b.loops| && a.loops[x].id == b.loops[y].id
      ensures x == y && a.loops[..x] == b.loops[..y] && a.loops[x].max == b.loops[y].max
    {
      if x >= |loops| && y >= |loops| {
        RootedSame(a.loops[x].id, q, m, n);
      }
    }
  }

  lemma ContiguousAppend(a: seq<Record>, b: seq<Record>)
    requires Contiguous(a) && Contiguous(b)
    requires forall i, j :: 0 <= i < |a| && 0 <= j < |b| ==> a[i].batch != b[j].batch
    ensures Contiguous(a + b)
  {
    var c := a + b;
    forall i, j, k | 0 <= i < j < k < |c| && c[i].batch == c[k].batch
      ensures c[j].batch == c[i].batch
    {
      assert c[i] == if i < |a| then a[i] else b[i - |a|];
      assert c[k] == if k < |a| then a[k] else b[k - |a|];
    }
  }

  lemma StructuredAppend(a: seq<Record>, b: seq<Record>)
    requires Structured(a) && Structured(b)
    requires forall i, j :: 0 <= i < |a| && 0 <= j < |b| ==> Related(a[i], b[j]) && a[i].batch != b[j].batch
    ensures Structured(a + b)
  {
    ContiguousAppend(a, b);
    var c := a + b;
    forall i, j | 0 <= i < j < |c|
      ensures Related(c[i], c[j])
    {
      if i < |a| && j >= |a| {
        assert Related(a[i], b[j - |a|]);
      }
    }
  }

  lemma AgentRecordsStructured(step: ChainStep, id: string, loops: seq<LoopScope>, q: string, n: nat)
    requires step.AgentStep? || (step.ParallelStep? && forall a :: a in step.agents ==> !IsBlank(a))
    requires step.AgentStep? ==> !IsBlank(step.name)
    requires id == q + Decimal(n) && Enclosing(loops, q)
    ensures Structured(AgentRecords(step, id, loops)) && AllAt(AgentRecords(step, id, loops), q, n, loops)
  {
    var rs := AgentRecords(step, id, loops);
    forall i | 0 <= i < |rs|
      ensures At(rs[i], q, n, loops) && WellShaped(rs[i])
    {
      assert Roles(step)[i] in Roles(step);
      if step.ParallelStep? {
        assert q + Decimal(n) + "/" <= StepId(id, i);
        RootedDeeper(StepId(id, i), q, n, "/");
      }
    }
    forall i, j | 0 <= i < j < |rs|
      ensures Related(rs[i], rs[j])
    {
      if rs[i].id == rs[j].id {
        RootedSame(rs[i].id, id + "/", i, j);
      }
    }
  }

  // ---- Loops ----

  lemma IterationRelated(
    a: Record, b: Record, id: string, i: nat, j: nat, inner: string, loops: seq<LoopScope>, max: nat)
    requires inner == id + "@" && i != j && Enclosing(loops, id)
    requires At(a, inner, i, loops + [LoopScope(id, i, max)])
    requires At(b, inner, j, loops + [LoopScope(id, j, max)])
    ensures Related(a, b) && a.batch != b.batch
  {
    if a.id == b.id {
      RootedSame(a.id, inner, i, j);
    }
    if a.batch == b.batch {
      RootedSame(a.batch, inner, i, j);
    }
    var d := |loops|;
    assert a.loops[d] == LoopScope(id, i, max) && b.loops[d] == LoopScope(id, j, max);
    assert a.loops[..d] == loops == b.loops[..d];
    forall x, y | 0 <= x < |a.loops| && 0 <= y < |b.loops| && a.loops[x].id == b.loops[y].id
      ensures x == y && a.loops[..x] == b.loops[..y] && a.loops[x].max == b.loops[y].max
    {
      assert x < d ==> a.loops[x] == loops[x];
      assert y < d ==> b.loops[y] == loops[y];
      if x > d && y > d {
        RootedSame(a.loops[x].id, inner, i, j);
      }
    }
  }

  /** A record below one iteration is a record below the loop step. */
  lemma IterationAt(r: Record, q: string, n: nat, iteration: nat, loops: seq<LoopScope>, max: nat)
    requires At(r, q + Decimal(n) + "@", iteration, loops + [LoopScope(q + Decimal(n), iteration, max)])
    ensures At(r, q, n, loops)
  {
    var id := q + Decimal(n);
    assert id + "@" <= id + "@" + Decimal(iteration);
    RootedDeeper(r.id, q, n, "@");
    RootedDeeper(r.batch, q, n, "@");
    forall x | |loops| <= x < |r.loops|
      ensures Rooted(r.loops[x].id, q, n)
    {
      if x > |loops| {
        RootedDeeper(r.loops[x].id, q, n, "@");
      }
    }
  }

  /** A record below a body step is a record below the iteration. */
  lemma BodyAt(r: Record, id: string, iteration: nat, n: nat, scope: seq<LoopScope>)
    requires At(r, IterationPath(id, iteration) + "/", n, scope)
    ensures At(r, id + "@", iteration, scope)
  {
    var q := id + "@";
    assert q + Decimal(iteration) + "/" <= IterationPath(id, iteration) + "/" + Decimal(n);
    RootedDeeper(r.id, q, iteration, "/");
    RootedDeeper(r.batch, q, iteration, "/");
    forall x | |scope| <= x < |r.loops|
      ensures Rooted(r.loops[x].id, q, iteration)
    {
      RootedDeeper(r.loops[x].id, q, iteration, "/");
    }
  }

  lemma NotRooted(q: string, n: nat)
    ensures !Rooted(q + "end", q, n)
  {
    assert (q + Decimal(n))[|q|] == Decimal(n)[0];
    assert (q + "end")[|q|] == 'e';
  }

  /** The end of an iteration is related to everything in that iteration's body. */
  lemma EndRelated(r: Record, id: string, iteration: nat, n: nat, loops: seq<LoopScope>, max: nat)
    requires At(r, IterationPath(id, iteration) + "/", n, loops + [LoopScope(id, iteration, max)])
    requires Nested(r.loops)
    ensures var end := LoopEndRecord(id, loops, iteration, max);
            Related(r, end) && r.batch != end.batch
  {
    var q := IterationPath(id, iteration) + "/";
    var end := LoopEndRecord(id, loops, iteration, max);
    assert end.id == q + "end";
    NotRooted(q, n);
    PrefixScopesAgree(end.loops, r.loops);
  }

  lemma EndShaped(id: string, iteration: nat, loops: seq<LoopScope>, max: nat)
    requires Enclosing(loops, id) && 1 <= iteration <= max
    ensures var end := LoopEndRecord(id, loops, iteration, max);
            WellShaped(end) && Structured([end])
            && At(end, id + "@", iteration, loops + [LoopScope(id, iteration, max)])
  {
    var end := LoopEndRecord(id, loops, iteration, max);
    RootedDeeper(end.id, id + "@", iteration, "/");
  }

  lemma EnclosingLonger(loops: seq<LoopScope>, p: string, q: string)
    requires Enclosing(loops, p) && |p| <= |q|
    ensures Enclosing(loops, q)
  {
  }

  lemma SiblingsAppend(a: seq<Record>, b: seq<Record>, q: string, k: nat, loops: seq<LoopScope>)
    requires Enclosing(loops, q)
    requires Structured(a) && AllAt(a, q, k, loops)
    requires Structured(b) && AllFrom(b, q, k + 1, loops)
    ensures Structured(a + b) && AllFrom(a + b, q, k, loops)
  {
    forall i, j | 0 <= i < |a| && 0 <= j < |b|
      ensures Related(a[i], b[j]) && a[i].batch != b[j].batch
    {
      assert Below(b[j], q, k + 1, loops);
      var n: nat :| k + 1 <= n && At(b[j], q, n, loops);
      SiblingsRelated(a[i], b[j], q, k, n, loops);
    }
    StructuredAppend(a, b);
    var c := a + b;
    forall i | 0 <= i < |c|
      ensures Below(c[i], q, k, loops)
    {
      if i < |a| {
        assert At(c[i], q, k, loops);
      } else {
        assert Below(b[i - |a|], q, k + 1, loops);
        var n: nat :| k + 1 <= n && At(b[i - |a|], q, n, loops);
        assert At(c[i], q, n, loops);
      }
    }
  }

  // ---- Main structural induction ----

  lemma {:induction false} EmitStructured(
    steps: seq<ChainStep>, k: nat, path: string, loops: seq<LoopScope>, depth: nat)
    requires ValidSteps(steps, depth) && Enclosing(loops, path + "/")
    ensures Structured(Emit(steps, k, path, loops))
    ensures AllFrom(Emit(steps, k, path, loops), path + "/", k, loops)
    decreases steps, 0, 0
  {
    if steps != [] {
      var q := path + "/";
      var a := EmitStep(steps[0], StepId(path, k), loops);
      var b := Emit(steps[1..], k + 1, path, loops);
      EmitStepStructured(steps[0], q, k, loops, depth);
      EmitStructured(steps[1..], k + 1, path, loops, depth);
      SiblingsAppend(a, b, q, k, loops);
    }
  }

  lemma {:induction false} EmitStepStructured(step: ChainStep, q: string, n: nat, loops: seq<LoopScope>, depth: nat)
    requires ValidStep(step, depth) && Enclosing(loops, q)
    ensures Structured(EmitStep(step, q + Decimal(n), loops))
    ensures AllAt(EmitStep(step, q + Decimal(n), loops), q, n, loops)
    decreases step, 0, 0
  {
    var id := q + Decimal(n);
    match step
    case AgentStep(_) => AgentRecordsStructured(step, id, loops, q, n);
    case ParallelStep(_) => AgentRecordsStructured(step, id, loops, q, n);
    case HumanStep(_) =>
    case LoopStep(max, body) =>
      EmitLoopStructured(body, q, n, loops, 1, max.n, depth);
      var rs := EmitLoop(body, id, loops, 1, max.n);
      forall i | 0 <= i < |rs|
        ensures At(rs[i], q, n, loops)
      {
        assert InSomeIteration(rs[i], id, 1, loops, max.n);
        var it: nat :| 1 <= it && At(rs[i], id + "@", it, loops + [LoopScope(id, it, max.n)]);
        IterationAt(rs[i], q, n, it, loops, max.n);
      }
  }

  /** One iteration: its body followed by its end. */
  lemma IterationStructured(body: seq<Record>, id: string, iteration: nat, loops: seq<LoopScope>, max: nat)
    requires Enclosing(loops, id) && 1 <= iteration <= max
    requires Structured(body)
    requires AllFrom(body, IterationPath(id, iteration) + "/", 0, loops + [LoopScope(id, iteration, max)])
    ensures var rs := body + [LoopEndRecord(id, loops, iteration, max)];
            Structured(rs) && AllAt(rs, id + "@", iteration, loops + [LoopScope(id, iteration, max)])
  {
    var scope := loops + [LoopScope(id, iteration, max)];
    var end := LoopEndRecord(id, loops, iteration, max);
    var q := IterationPath(id, iteration) + "/";
    EndShaped(id, iteration, loops, max);
    forall i | 0 <= i < |body|
      ensures Related(body[i], end) && body[i].batch != end.batch && At(body[i], id + "@", iteration, scope)
    {
      assert Below(body[i], q, 0, scope);
      var n: nat :| At(body[i], q, n, scope);
      EndRelated(body[i], id, iteration, n, loops, max);
      BodyAt(body[i], id, iteration, n, scope);
    }
    StructuredAppend(body, [end]);
  }

  ghost predicate InSomeIteration(r: Record, id: string, first: nat, loops: seq<LoopScope>, max: nat) {
    exists it: nat :: first <= it && At(r, id + "@", it, loops + [LoopScope(id, it, max)])
  }

  ghost predicate AllIterations(rs: seq<Record>, id: string, first: nat, loops: seq<LoopScope>, max: nat) {
    forall i :: 0 <= i < |rs| ==> InSomeIteration(rs[i], id, first, loops, max)
  }

  lemma LoopAppend(a: seq<Record>, b: seq<Record>, id: string, it: nat, loops: seq<LoopScope>, max: nat)
    requires Enclosing(loops, id)
    requires Structured(a) && AllAt(a, id + "@", it, loops + [LoopScope(id, it, max)])
    requires Structured(b) && AllIterations(b, id, it + 1, loops, max)
    ensures Structured(a + b) && AllIterations(a + b, id, it, loops, max)
  {
    forall i, j | 0 <= i < |a| && 0 <= j < |b|
      ensures Related(a[i], b[j]) && a[i].batch != b[j].batch
    {
      assert InSomeIteration(b[j], id, it + 1, loops, max);
      var n: nat :| it + 1 <= n && At(b[j], id + "@", n, loops + [LoopScope(id, n, max)]);
      IterationRelated(a[i], b[j], id, it, n, id + "@", loops, max);
    }
    StructuredAppend(a, b);
    var c := a + b;
    forall i | 0 <= i < |c|
      ensures InSomeIteration(c[i], id, it, loops, max)
    {
      if i < |a| {
        assert At(c[i], id + "@", it, loops + [LoopScope(id, it, max)]);
      } else {
        assert InSomeIteration(b[i - |a|], id, it + 1, loops, max);
        var n: nat :| it + 1 <= n && At(b[i - |a|], id + "@", n, loops + [LoopScope(id, n, max)]);
      }
    }
  }

  lemma {:induction false} EmitLoopStructured(body: seq<ChainStep>, q: string, n: nat, loops: seq<LoopScope>,
                                              it: nat, max: nat, depth: nat)
    requires ValidChain(body, depth + 1) && Enclosing(loops, q) && 1 <= it <= max + 1
    ensures var rs := EmitLoop(body, q + Decimal(n), loops, it, max);
            Structured(rs) && AllIterations(rs, q + Decimal(n), it, loops, max)
    decreases body, 1, max - it + 1
  {
    if it <= max {
      var id := q + Decimal(n);
      var scope := loops + [LoopScope(id, it, max)];
      var path := IterationPath(id, it);
      EnclosingLonger(loops, q, id);
      assert Enclosing(scope, path + "/");
      EmitStructured(body, 0, path, scope, depth + 1);
      var records := Emit(body, 0, path, scope);
      IterationStructured(records, id, it, loops, max);
      EmitLoopStructured(body, q, n, loops, it + 1, max, depth);
      LoopAppend(records + [LoopEndRecord(id, loops, it, max)],
                 EmitLoop(body, id, loops, it + 1, max), id, it, loops, max);
    }
  }

  /**
   * Every compiled record list has pairwise distinct ids, contiguous batches with identical loop scopes,
   * and loops shared only together with everything enclosing them.
   */
  lemma CompiledStructured(workflow: Workflow, command: string)
    requires CompileWorkflow(workflow, command).Success?
    ensures Structured(CompileWorkflow(workflow, command).value)
  {
    CompileExact(workflow, command);
    EmitStructured(workflow.commands[command].chain, 0, EncodeURIComponent(command), [], 0);
  }
}
