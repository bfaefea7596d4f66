/** Compilation of bounded control flow to a flat record list with path identities. */
module Compile {
  import opened Wrappers
  import opened Text
  import opened Workflows
  import opened Records

  const MAX_RECORDS: int := 10_000
  const MAX_DEPTH: int := 16

  datatype CompileError =
    | UnknownCommand | RecordBudget | DepthBudget | EmptyChain | NamelessRole | BlankPrompt | BadLoopMax

  // ---- Identities ----

  predicate IsUnreserved(c: char) {
    || 'a' <= c <= 'z' || 'A' <= c <= 'Z' || IsDigit(c)
    || c in "-_.!~*'()"
  }

  function HexDigit(d: nat): char
    requires d < 16
  {
    if d < 10 then DigitChar(d) else 'A' + (d - 10) as char
  }

  function PercentByte(b: nat): string
    requires b < 256
  {
    ['%', HexDigit(b / 16), HexDigit(b % 16)]
  }

  function PercentUtf8(c: char): string {
    var p := c as int;
    if p < 0x80 then PercentByte(p)
    else if p < 0x800 then PercentByte(0xC0 + p / 0x40) + PercentByte(0x80 + p % 0x40)
    else if p < 0x1_0000 then
      PercentByte(0xE0 + p / 0x1000) + PercentByte(0x80 + p / 0x40 % 0x40) + PercentByte(0x80 + p % 0x40)
    else
      PercentByte(0xF0 + p / 0x4_0000) + PercentByte(0x80 + p / 0x1000 % 0x40)
      + PercentByte(0x80 + p / 0x40 % 0x40) + PercentByte(0x80 + p % 0x40)
  }

  function EncodeURIComponent(s: string): string {
    if s == "" then ""
    else (if IsUnreserved(s[0]) then [s[0]] else PercentUtf8(s[0])) + EncodeURIComponent(s[1..])
  }

  function StepId(path: string, index: nat): string {
    path + "/" + Decimal(index)
  }

  function IterationPath(id: string, iteration: nat): string {
    id + "@" + Decimal(iteration)
  }

  // ---- The record list, without budgets ----

  function Roles(step: ChainStep): seq<string>
    requires step.AgentStep? || step.ParallelStep?
  {
    if step.AgentStep? then [step.name] else step.agents
  }

  function AgentRecords(step: ChainStep, id: string, loops: seq<LoopScope>): (rs: seq<Record>)
    requires step.AgentStep? || step.ParallelStep?
    ensures |rs| == |Roles(step)| && AllFresh(rs)
  {
    seq(|Roles(step)|, slot requires 0 <= slot < |Roles(step)| =>
      Fresh(if step.AgentStep? then id else StepId(id, slot), Agent, id, Some(Roles(step)[slot]), None, loops))
  }

  function LoopEndRecord(id: string, loops: seq<LoopScope>, iteration: nat, max: nat): Record {
    var end := IterationPath(id, iteration) + "/end";
    Fresh(end, LoopEnd, end, None, None, loops + [LoopScope(id, iteration, max)])
  }

  predicate AllFresh(rs: seq<Record>) {
    forall i :: 0 <= i < |rs| ==> rs[i].status == Pending && Topology(rs[i]) == rs[i]
  }

  function Emit(steps: seq<ChainStep>, k: nat, path: string, loops: seq<LoopScope>): (rs: seq<Record>)
    ensures AllFresh(rs)
    decreases steps, 0, 0
  {
    if steps == [] then []
    else EmitStep(steps[0], StepId(path, k), loops) + Emit(steps[1..], k + 1, path, loops)
  }

  function EmitStep(step: ChainStep, id: string, loops: seq<LoopScope>): (rs: seq<Record>)
    ensures AllFresh(rs)
    decreases step, 0, 0
  {
    match step
    case AgentStep(_) => AgentRecords(step, id, loops)
    case ParallelStep(_) => AgentRecords(step, id, loops)
    case HumanStep(prompt) => [Fresh(id, Human, id, None, Some(prompt), loops)]
    case LoopStep(max, body) => if max.Whole? then EmitLoop(body, id, loops, 1, max.n) else []
  }

  function EmitLoop(
    body: seq<ChainStep>, id: string, loops: seq<LoopScope>, iteration: nat, max: int): (rs: seq<Record>)
    ensures AllFresh(rs)
    decreases body, 1, max - iteration + 1
  {
    if iteration > max then []
    else
      Emit(body, 0, IterationPath(id, iteration), loops + [LoopScope(id, iteration, max)])
      + [LoopEndRecord(id, loops, iteration, max)]
      + EmitLoop(body, id, loops, iteration + 1, max)
  }

  /** Closed form of the number of records. */
  function Count(steps: seq<ChainStep>): nat
    decreases steps
  {
    if steps == [] then 0 else CountStep(steps[0]) + Count(steps[1..])
  }

  function CountStep(step: ChainStep): nat
    decreases step
  {
    match step
    case AgentStep(_) => 1
    case ParallelStep(agents) => |agents|
    case HumanStep(_) => 1
    case LoopStep(max, body) => if max.Whole? && max.n > 0 then max.n * (Count(body) + 1) else 0
  }

  // ---- Which definitions are accepted ----

  predicate ValidStep(step: ChainStep, depth: nat)
    decreases step
  {
    match step
    case AgentStep(name) => !IsBlank(name)
    case ParallelStep(agents) => agents != [] && forall a :: a in agents ==> !IsBlank(a)
    case HumanStep(prompt) => !IsBlank(prompt)
    case LoopStep(max, body) => max.Whole? && 1 <= max.n <= MAX_RECORDS && ValidChain(body, depth + 1)
  }

  predicate ValidSteps(steps: seq<ChainStep>, depth: nat)
    decreases steps, 0
  {
    steps == [] || (ValidStep(steps[0], depth) && ValidSteps(steps[1..], depth))
  }

  predicate ValidChain(steps: seq<ChainStep>, depth: nat)
    decreases steps, 1
  {
    depth <= MAX_DEPTH && steps != [] && ValidSteps(steps, depth)
  }

  // ---- The budgeted traversal: how many records it has pushed, or its first error ----

  function Push(used: nat, more: nat): Result<nat, CompileError> {
    if used + more <= MAX_RECORDS then Success(used + more) else Failure(RecordBudget)
  }

  function Expand(steps: seq<ChainStep>, depth: nat, used: nat): Result<nat, CompileError>
    decreases steps, 1, 0
  {
    if depth > MAX_DEPTH then Failure(DepthBudget)
    else if steps == [] then Failure(EmptyChain)
    else ExpandSteps(steps, depth, used)
  }

  function ExpandSteps(steps: seq<ChainStep>, depth: nat, used: nat): Result<nat, CompileError>
    decreases steps, 0, 0
  {
    if steps == [] then Success(used)
    else
      var r := ExpandStep(steps[0], depth, used);
      if r.Failure? then r else ExpandSteps(steps[1..], depth, r.value)
  }

  function ExpandStep(step: ChainStep, depth: nat, used: nat): Result<nat, CompileError>
    decreases step, 0, 0
  {
    match step
    case AgentStep(name) => if IsBlank(name) then Failure(NamelessRole) else Push(used, 1)
    case ParallelStep(agents) =>
      if agents == [] || exists a :: a in agents && IsBlank(a) then Failure(NamelessRole)
      else Push(used, |agents|)
    case HumanStep(prompt) => if IsBlank(prompt) then Failure(BlankPrompt) else Push(used, 1)
    case LoopStep(max, body) =>
      if max.Inexact? || max.n < 1 || max.n > MAX_RECORDS then Failure(BadLoopMax)
      else ExpandLoop(body, depth, used, 1, max.n)
  }

  function ExpandLoop(body: seq<ChainStep>, depth: nat, used: nat, iteration: nat, max: int): Result<nat, CompileError>
    decreases body, 2, max - iteration + 1
  {
    if iteration > max then Success(used)
    else
      var r := Expand(body, depth + 1, used);
      if r.Failure? then r
      else
        var e := Push(r.value, 1);
        if e.Failure? then e else ExpandLoop(body, depth, e.value, iteration + 1, max)
  }

  function CompileWorkflow(workflow: Workflow, command: string): (r: Result<seq<Record>, CompileError>)
    ensures r.Success? ==> AllFresh(r.value)
  {
    if command !in workflow.commands then Failure(UnknownCommand)
    else
      var chain := workflow.commands[command].chain;
      var r := Expand(chain, 0, 0);
      if r.Failure? then Failure(r.error)
      else Success(Emit(chain, 0, EncodeURIComponent(command), []))
  }
}
