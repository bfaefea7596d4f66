/** What a compiled record list says: the chain itself, unrolled, with nobody added, dropped or moved. */
module CompileMeaning {
  import opened Wrappers
  import opened Text
  import opened Workflows
  import opened Records
  import opened Compile
  import opened CompileProofs

  /** One pass through a loop of so many. */
  datatype Lap = Lap(iteration: nat, max: nat)

  /** One thing to do, inside which passes; `joins` when it runs in parallel with the one before. */
  datatype Task =
    | Work(role: string, laps: seq<Lap>, joins: bool)
    | Ask(prompt: string, laps: seq<Lap>)
    | LapEnd(laps: seq<Lap>)

  // ---- The intended sequence, read off the chain ----

  function Tasks(chain: seq<ChainStep>, laps: seq<Lap>): seq<Task>
    decreases chain, 0, 0
  {
    if chain == [] then [] else TasksOf(chain[0], laps) + Tasks(chain[1..], laps)
  }

  function TasksOf(step: ChainStep, laps: seq<Lap>): seq<Task>
    decreases step, 0, 0
  {
    match step
    case AgentStep(name) => [Work(name, laps, false)]
    case ParallelStep(agents) => seq(|agents|, i requires 0 <= i < |agents| => Work(agents[i], laps, i > 0))
    case HumanStep(prompt) => [Ask(prompt, laps)]
    case LoopStep(max, body) => if max.Whole? then Passes(body, laps, 1, max.n) else []
  }

  /** The body once for each pass, with an end after each. */
  function Passes(body: seq<ChainStep>, laps: seq<Lap>, iteration: nat, max: int): seq<Task>
    decreases body, 1, max - iteration + 1
  {
    if iteration > max then []
    else
      var inside := laps + [Lap(iteration, max)];
      Tasks(body, inside) + [LapEnd(inside)] + Passes(body, laps, iteration + 1, max)
  }

  // ---- What the records say ----

  function LapsOf(loops: seq<LoopScope>): (laps: seq<Lap>)
    ensures |laps| == |loops|
  {
    seq(|loops|, i requires 0 <= i < |loops| => Lap(loops[i].iteration, loops[i].max))
  }

  /** The record does this task. */
  predicate Does(r: Record, task: Task) {
    match task
    case Work(role, laps, _) => r.kind == Agent && r.role == Some(role) && r.prompt.None? && LapsOf(r.loops) == laps
    case Ask(prompt, laps) => r.kind == Human && r.role.None? && r.prompt == Some(prompt) && LapsOf(r.loops) == laps
    case LapEnd(laps) => r.kind == LoopEnd && r.role.None? && r.prompt.None? && LapsOf(r.loops) == laps
  }

  /** Record by record, and sharing a batch with the predecessor exactly where the chain says so. */
  predicate Carries(rs: seq<Record>, tasks: seq<Task>) {
    && |rs| == |tasks|
    && (forall i :: 0 <= i < |rs| ==> Does(rs[i], tasks[i]))
    && (forall i :: 0 < i < |rs| ==> (rs[i].batch == rs[i - 1].batch <==> tasks[i].Work? && tasks[i].joins))
    && (tasks != [] ==> !(tasks[0].Work? && tasks[0].joins))
  }

  /** A seam between two parts that share no batch. */
  lemma Joined(a: seq<Record>, b: seq<Record>, x: seq<Task>, y: seq<Task>)
    requires Carries(a, x) && Carries(b, y)
    requires a != [] && b != [] ==> a[|a| - 1].batch != b[0].batch
    ensures Carries(a + b, x + y)
  {
    var rs, tasks := a + b, x + y;
    forall i | 0 < i < |rs|
      ensures rs[i].batch == rs[i - 1].batch <==> tasks[i].Work? && tasks[i].joins
    {
      if i > |a| {
        assert rs[i] == b[i - |a|] && rs[i - 1] == b[i - |a| - 1] && tasks[i] == y[i - |a|];
      }
    }
  }

  lemma LapsGrow(loops: seq<LoopScope>, scope: LoopScope)
    ensures LapsOf(loops + [scope]) == LapsOf(loops) + [Lap(scope.iteration, scope.max)]
  {
  }

  lemma {:induction false} ChainCarries(
    steps: seq<ChainStep>, k: nat, path: string, loops: seq<LoopScope>, depth: nat)
    requires ValidSteps(steps, depth) && Enclosing(loops, path + "/")
    ensures Carries(Emit(steps, k, path, loops), Tasks(steps, LapsOf(loops)))
    decreases steps, 0, 0
  {
    if steps != [] {
      var q := path + "/";
      var a := EmitStep(steps[0], StepId(path, k), loops);
      var b := Emit(steps[1..], k + 1, path, loops);
      StepCarries(steps[0], q, k, loops, depth);
      ChainCarries(steps[1..], k + 1, path, loops, depth);
      EmitStepStructured(steps[0], q, k, loops, depth);
      EmitStructured(steps[1..], k + 1, path, loops, depth);
      if a != [] && b != [] {
        assert Below(b[0], q, k + 1, loops);
        var n: nat :| k + 1 <= n && At(b[0], q, n, loops);
        SiblingsRelated(a[|a| - 1], b[0], q, k, n, loops);
      }
      Joined(a, b, TasksOf(steps[0], LapsOf(loops)), Tasks(steps[1..], LapsOf(loops)));
    }
  }

  lemma {:induction false} StepCarries(step: ChainStep, q: string, n: nat, loops: seq<LoopScope>, depth: nat)
    requires ValidStep(step, depth) && Enclosing(loops, q)
    ensures Carries(EmitStep(step, q + Decimal(n), loops), TasksOf(step, LapsOf(loops)))
    decreases step, 0, 0
  {
    match step
    case LoopStep(max, body) => PassesCarry(body, q, n, loops, 1, max.n, depth);
    case _ =>
  }

  lemma {:induction false} PassesCarry(body: seq<ChainStep>, q: string, n: nat, loops: seq<LoopScope>,
                                       it: nat, max: nat, depth: nat)
    requires ValidChain(body, depth + 1) && Enclosing(loops, q) && 1 <= it <= max + 1
    ensures Carries(EmitLoop(body, q + Decimal(n), loops, it, max), Passes(body, LapsOf(loops), it, max))
    decreases body, 1, max - it + 1
  {
    if it <= max {
      var id := q + Decimal(n);
      var scope := LoopScope(id, it, max);
      var records, inside := Emit(body, 0, IterationPath(id, it), loops + [scope]), LapsOf(loops) + [Lap(it, max)];
      EnclosingLonger(loops, q, id);
      assert Enclosing(loops + [scope], IterationPath(id, it) + "/");
      LapsGrow(loops, scope);
      ChainCarries(body, 0, IterationPath(id, it), loops + [scope], depth + 1);
      EndCarries(body, id, loops, it, max, depth);
      PassesCarry(body, q, n, loops, it + 1, max, depth);
      NextPass(body, q, n, loops, it, max, depth);
      Joined(records + [LoopEndRecord(id, loops, it, max)], EmitLoop(body, id, loops, it + 1, max),
             Tasks(body, inside) + [LapEnd(inside)], Passes(body, LapsOf(loops), it + 1, max));
    }
  }

  /** The end of a pass follows its body in a batch of its own. */
  lemma EndCarries(body: seq<ChainStep>, id: string, loops: seq<LoopScope>, it: nat, max: nat, depth: nat)
    requires ValidChain(body, depth + 1) && Enclosing(loops + [LoopScope(id, it, max)], IterationPath(id, it) + "/")
    requires Carries(Emit(body, 0, IterationPath(id, it), loops + [LoopScope(id, it, max)]),
                     Tasks(body, LapsOf(loops) + [Lap(it, max)]))
    ensures var inside := LapsOf(loops) + [Lap(it, max)];
            Carries(Emit(body, 0, IterationPath(id, it), loops + [LoopScope(id, it, max)])
                    + [LoopEndRecord(id, loops, it, max)],
                    Tasks(body, inside) + [LapEnd(inside)])
  {
    var scope, path := LoopScope(id, it, max), IterationPath(id, it);
    var records, end := Emit(body, 0, path, loops + [scope]), LoopEndRecord(id, loops, it, max);
    var inside := LapsOf(loops) + [Lap(it, max)];
    LapsGrow(loops, scope);
    EmitStructured(body, 0, path, loops + [scope], depth + 1);
    if records != [] {
      var last := records[|records| - 1];
      assert Below(last, path + "/", 0, loops + [scope]);
      var m: nat :| At(last, path + "/", m, loops + [scope]);
      EndRelated(last, id, it, m, loops, max);
    }
    assert Carries([end], [LapEnd(inside)]);
    Joined(records, [end], Tasks(body, inside), [LapEnd(inside)]);
  }

  /** A pass and the next one share no batch. */
  lemma NextPass(body: seq<ChainStep>, q: string, n: nat, loops: seq<LoopScope>, it: nat, max: nat, depth: nat)
    requires ValidChain(body, depth + 1) && Enclosing(loops, q) && 1 <= it <= max
    ensures var rest := EmitLoop(body, q + Decimal(n), loops, it + 1, max);
            rest != [] ==> LoopEndRecord(q + Decimal(n), loops, it, max).batch != rest[0].batch
  {
    var id := q + Decimal(n);
    var rest := EmitLoop(body, id, loops, it + 1, max);
    EmitLoopStructured(body, q, n, loops, it + 1, max, depth);
    EnclosingLonger(loops, q, id);
    EndShaped(id, it, loops, max);
    if rest != [] {
      assert InSomeIteration(rest[0], id, it + 1, loops, max);
      var m: nat :| it + 1 <= m && At(rest[0], id + "@", m, loops + [LoopScope(id, m, max)]);
      IterationRelated(LoopEndRecord(id, loops, it, max), rest[0], id, it, m, id + "@", loops, max);
    }
  }

  /**
   * Whatever compiles is the chain, unrolled: each agent under its own name, parallel agents in order and in one batch,
   * each checkpoint with its prompt, each loop body once for every pass and an end after it, and nothing else.
   */
  lemma CompiledCarries(workflow: Workflow, command: string)
    requires CompileWorkflow(workflow, command).Success?
    ensures Carries(CompileWorkflow(workflow, command).value, Tasks(workflow.commands[command].chain, []))
  {
    CompileExact(workflow, command);
    ChainCarries(workflow.commands[command].chain, 0, EncodeURIComponent(command), [], 0);
  }
}
