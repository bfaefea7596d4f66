/** The compiler as it runs: one growing record list, pushed to through nested loops. */
module Expansion {
  import opened Wrappers
  import opened Text
  import opened Workflows
  import opened Records
  import opened Compile
  import opened CompileProofs

  function ErrorOf(r: Result<nat, CompileError>): Option<CompileError> {
    if r.Success? then None else Some(r.error)
  }

  class Expander {
    var records: seq<Record>

    constructor ()
      ensures records == []
    {
      records := [];
    }

    method Add(record: Record) returns (error: Option<CompileError>)
      modifies this
      ensures error == ErrorOf(Push(|old(records)|, 1))
      ensures records == old(records) + if error.None? then [record] else []
    {
      if |records| >= MAX_RECORDS {
        return Some(RecordBudget);
      }
      records := records + [record];
      return None;
    }

    method AddAgents(step: ChainStep, id: string, loops: seq<LoopScope>) returns (error: Option<CompileError>)
      requires step.AgentStep? || step.ParallelStep?
      requires |records| <= MAX_RECORDS
      modifies this
      ensures error == ErrorOf(Push(|old(records)|, |Roles(step)|))
      ensures error.None? ==> records == old(records) + AgentRecords(step, id, loops)
    {
      var roles := Roles(step);
      var all := AgentRecords(step, id, loops);
      for slot := 0 to |roles|
        invariant records == old(records) + all[..slot] && |records| <= MAX_RECORDS
      {
        var recordId := if step.AgentStep? then id else StepId(id, slot);
        error := Add(Fresh(recordId, Agent, id, Some(roles[slot]), None, loops));
        if error.Some? {
          return;
        }
        assert all[..slot + 1] == all[..slot] + [all[slot]];
      }
      assert all[..|roles|] == all;
      return None;
    }

    method ExpandChain(steps: seq<ChainStep>, path: string, loops: seq<LoopScope>) returns (error: Option<CompileError>)
      requires |records| <= MAX_RECORDS
      modifies this
      ensures error == ErrorOf(Expand(steps, |loops|, |old(records)|))
      ensures error.None? ==> records == old(records) + Emit(steps, 0, path, loops) && |records| <= MAX_RECORDS
      decreases steps, 1, 0
    {
      if |loops| > MAX_DEPTH {
        return Some(DepthBudget);
      }
      if steps == [] {
        return Some(EmptyChain);
      }
      var index := 0;
      while index < |steps|
        invariant 0 <= index <= |steps| && |records| <= MAX_RECORDS
        invariant ExpandSteps(steps, |loops|, |old(records)|) == ExpandSteps(steps[index..], |loops|, |records|)
        invariant old(records) + Emit(steps, 0, path, loops) == records + Emit(steps[index..], index, path, loops)
      {
        ghost var rest := steps[index..];
        assert rest[0] == steps[index] && rest[1..] == steps[index + 1..];
        ghost var before := records;
        error := ExpandOne(steps[index], StepId(path, index), loops);
        if error.Some? {
          return;
        }
        assert before + Emit(rest, index, path, loops)
            == before + EmitStep(steps[index], StepId(path, index), loops) + Emit(rest[1..], index + 1, path, loops);
        index := index + 1;
      }
      return None;
    }

    method ExpandOne(step: ChainStep, id: string, loops: seq<LoopScope>) returns (error: Option<CompileError>)
      requires |records| <= MAX_RECORDS
      modifies this
      ensures error == ErrorOf(ExpandStep(step, |loops|, |old(records)|))
      ensures error.None? ==>
        && records == old(records) + EmitStep(step, id, loops)
        && |records| <= MAX_RECORDS
        && |records| == ExpandStep(step, |loops|, |old(records)|).value
      decreases step, 0, 0
    {
      match step
      case AgentStep(name) =>
        if IsBlank(name) {
          return Some(NamelessRole);
        }
        error := AddAgents(step, id, loops);
      case ParallelStep(agents) =>
        if agents == [] || exists a :: a in agents && IsBlank(a) {
          return Some(NamelessRole);
        }
        error := AddAgents(step, id, loops);
      case HumanStep(prompt) =>
        if IsBlank(prompt) {
          return Some(BlankPrompt);
        }
        error := Add(Fresh(id, Human, id, None, Some(prompt), loops));
      case LoopStep(max, body) =>
        if max.Inexact? || max.n < 1 || max.n > MAX_RECORDS {
          return Some(BadLoopMax);
        }
        error := ExpandIterations(body, id, loops, max.n);
    }

    method ExpandIterations(body: seq<ChainStep>, id: string, loops: seq<LoopScope>, max: nat)
      returns (error: Option<CompileError>)
      requires |records| <= MAX_RECORDS
      modifies this
      ensures error == ErrorOf(ExpandLoop(body, |loops|, |old(records)|, 1, max))
      ensures error.None? ==>
        && records == old(records) + EmitLoop(body, id, loops, 1, max)
        && |records| <= MAX_RECORDS
        && |records| == ExpandLoop(body, |loops|, |old(records)|, 1, max).value
      decreases body, 2, 0
    {
      var iteration := 1;
      while iteration <= max
        invariant 1 <= iteration && |records| <= MAX_RECORDS
        invariant ExpandLoop(body, |loops|, |old(records)|, 1, max)
               == ExpandLoop(body, |loops|, |records|, iteration, max)
        invariant old(records) + EmitLoop(body, id, loops, 1, max)
               == records + EmitLoop(body, id, loops, iteration, max)
      {
        ghost var before := records;
        var scope := loops + [LoopScope(id, iteration, max)];
        var prefix := IterationPath(id, iteration);
        ExpandExact(body, |scope|, |records|);
        EmitCount(body, 0, prefix, scope);
        error := ExpandChain(body, prefix, scope);
        if error.Some? {
          return;
        }
        error := Add(Fresh(prefix + "/end", LoopEnd, prefix + "/end", None, None, scope));
        if error.Some? {
          return;
        }
        assert before + EmitLoop(body, id, loops, iteration, max)
            == before + (Emit(body, 0, prefix, scope) + [LoopEndRecord(id, loops, iteration, max)])
               + EmitLoop(body, id, loops, iteration + 1, max);
        iteration := iteration + 1;
      }
      return None;
    }
  }

  /** The imperative compiler computes exactly the specified record list, or the same first error. */
  method CompileRecords(workflow: Workflow, command: string) returns (r: Result<seq<Record>, CompileError>)
    ensures r == CompileWorkflow(workflow, command)
  {
    if command !in workflow.commands {
      return Failure(UnknownCommand);
    }
    var expander := new Expander();
    var error := expander.ExpandChain(workflow.commands[command].chain, EncodeURIComponent(command), []);
    if error.Some? {
      return Failure(error.value);
    }
    assert expander.records == Emit(workflow.commands[command].chain, 0, EncodeURIComponent(command), []);
    return Success(expander.records);
  }
}
