/** Execution records: the flat program a workflow command compiles to. */
module Records {
  import opened Wrappers
  import opened Text

  datatype LoopScope = LoopScope(id: string, iteration: nat, max: nat)

  datatype Kind = Agent | Human | LoopEnd

  datatype RecordStatus = Pending | Running | Completed | Skipped | Waiting | Blocked | Interrupted

  datatype OutcomeStatus = OutcomeCompleted | OutcomeBlocked | NeedsHuman

  datatype Review = Approved | ChangesRequested

  datatype Outcome = Outcome(
    status: OutcomeStatus, summary: string, review: Option<Review>, allDone: Option<bool>)

  datatype Record = Record(
    id: string, kind: Kind, batch: string, role: Option<string>, prompt: Option<string>,
    loops: seq<LoopScope>, status: RecordStatus,
    outcome: Option<Outcome>, answer: Option<string>, error: Option<string>)

  function Fresh(id: string, kind: Kind, batch: string, role: Option<string>, prompt: Option<string>,
                 loops: seq<LoopScope>): Record {
    Record(id, kind, batch, role, prompt, loops, Pending, None, None, None)
  }

  /** Identity fields only; execution results are reset. */
  function Topology(r: Record): Record {
    r.(status := Pending, outcome := None, answer := None, error := None)
  }

  predicate Done(r: Record) {
    r.status == Completed || r.status == Skipped
  }

  /** The record lies inside some iteration of the loop. */
  predicate InLoop(r: Record, loop: string) {
    exists x :: 0 <= x < |r.loops| && r.loops[x].id == loop
  }

  /** The record lies inside that very iteration of the loop. */
  predicate InIteration(r: Record, scope: LoopScope) {
    exists x :: 0 <= x < |r.loops| && r.loops[x].id == scope.id && r.loops[x].iteration == scope.iteration
  }

  /** Scope ids strictly grow along one record's nesting, so they are pairwise distinct. */
  predicate Nested(loops: seq<LoopScope>) {
    forall x, y :: 0 <= x < y < |loops| ==> |loops[x].id| < |loops[y].id|
  }

  /** Sharing one loop means sharing its bound and every enclosing iteration. */
  predicate ScopesAgree(a: seq<LoopScope>, b: seq<LoopScope>) {
    forall x, y :: 0 <= x < |a| && 0 <= y < |b| && a[x].id == b[y].id ==>
      x == y && a[..x] == b[..x] && a[x].max == b[y].max
  }

  /** What any two different compiled records satisfy. */
  predicate Related(a: Record, b: Record) {
    && a.id != b.id
    && (a.batch == b.batch ==> a.kind == Agent && b.kind == Agent && a.loops == b.loops)
    && ScopesAgree(a.loops, b.loops)
  }

  predicate Contiguous(rs: seq<Record>) {
    forall i, j, k :: 0 <= i < j < k < |rs| && rs[i].batch == rs[k].batch ==> rs[j].batch == rs[i].batch
  }

  predicate PairwiseRelated(rs: seq<Record>) {
    forall i, j :: 0 <= i < j < |rs| ==> Related(rs[i], rs[j])
  }

  /** Each record on its own: the fields its kind needs, and sensible scopes. */
  predicate WellShaped(r: Record) {
    && Nested(r.loops)
    && (forall x :: 0 <= x < |r.loops| ==> 1 <= r.loops[x].iteration <= r.loops[x].max)
    && match r.kind
       case Agent => r.role.Some? && !IsBlank(r.role.value) && r.prompt.None?
       case Human => r.role.None? && r.prompt.Some? && !IsBlank(r.prompt.value)
       case LoopEnd => r.role.None? && r.prompt.None? && r.loops != []
  }

  predicate AllShaped(rs: seq<Record>) {
    forall i :: 0 <= i < |rs| ==> WellShaped(rs[i])
  }

  /** The structural facts every transition relies on. */
  predicate Structured(rs: seq<Record>) {
    AllShaped(rs) && PairwiseRelated(rs) && Contiguous(rs)
  }
}
