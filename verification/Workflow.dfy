/** Pinned workflow definitions, as accepted by the workflow schema. */
module Workflows {
  /** A JSON number used as a loop bound; fractions and infinities pass the schema too. */
  datatype Bound = Whole(n: int) | Inexact

  datatype ChainStep =
    | AgentStep(name: string)
    | ParallelStep(agents: seq<string>)
    | HumanStep(prompt: string)
    | LoopStep(max: Bound, body: seq<ChainStep>)

  datatype Command = Command(description: string, chain: seq<ChainStep>)

  datatype Workflow = Workflow(commands: map<string, Command>)
}
