/**
 * Write-ahead persistence of one session: intent, effects, checkpoint. Openers come and go, may crash between any two
 * steps, and a save may report failure before or after its rename took effect.
 */
module Persistence {
  import opened Wrappers

  datatype Mutation = Prompt | Config | Restore

  /** `Checkpoint(v)` holds a runtime snapshot in which the first `v` backend effects are accounted for. */
  datatype Record = Intent(operation: Mutation) | Update(content: string) | Checkpoint(version: nat)

  type Records = seq<Record>

  /** The last record decides what the file is good for. */
  predicate Storable(records: Records) {
    records != [] && !records[|records| - 1].Update?
  }

  predicate Complete(records: Records) {
    records != [] && records[|records| - 1].Checkpoint?
  }

  function Version(records: Records): nat
    requires Complete(records)
  {
    records[|records| - 1].version
  }

  datatype GetError = IncompleteMutation

  /** `store.get`: absent, the checkpointed session, or a refusal. */
  function Get(disk: Option<Records>): Result<Option<Records>, GetError> {
    if disk.Some? && !Complete(disk.value) then Failure(IncompleteMutation) else Success(disk)
  }

  /** Why a save is under way, which fixes where control returns to. */
  datatype Purpose =
    | ForRestore(stored: Records)
    | ForUndo(stored: Records)
    | ForOperation(operation: Mutation)
    | ForSetup
    | ForTurn

  datatype Phase =
    | Acquired                          // lease taken, nothing read
    | Creating(found: Option<Records>)  // runtime being created
    | Restoring(stored: Records)        // restore intent acknowledged, runtime untouched
    | Restored                          // runtime state replaced, selectors being set
    | Activating                        // setup about to be committed
    | Ready                             // no operation in progress
    | Reserved(operation: Mutation)     // operation admitted, nothing written
    | Running(operation: Mutation)      // intent acknowledged, backend may act
    | Finishing                         // backend settled, checkpoint attempt to follow
    | Saving(purpose: Purpose, content: Records, renamed: bool)
    | RollingBack                       // setup failed
    | Closed

  /**
   * One opener of the session. `version` is what a snapshot of its runtime would account for; `commands` are the
   * terminal commands somebody still waits for or will clean up, `strays` those given up on without knowing their end.
   */
  datatype Handle = Handle(
    phase: Phase, records: Records, version: nat, writes: nat, unknown: bool, failed: bool, closing: bool,
    commands: nat, strays: nat)

  type Id = nat

  /**
   * `effects` counts the backend effects begun so far by anyone, client writes and terminal commands included;
   * `unsettled` the client writes whose outcome nobody has learned, `running` the commands not known to have ended.
   */
  datatype World = World(
    disk: Option<Records>, born: bool, effects: nat, unsettled: nat, running: nat, lease: Option<Id>,
    handles: map<Id, Handle>)

  datatype Event =
    | OpenNew(id: Id)
    | OpenStored(id: Id)
    | Read(id: Id, sameCwd: bool)
    | CreateRuntime(id: Id)
    | SetupFails(id: Id)
    | UndoIntent(id: Id)
    | ApplyRestore(id: Id)
    | Activate(id: Id)
    | Reserve(id: Id, operation: Mutation)
    | Decline(id: Id)
    | WriteIntent(id: Id)
    | Effect(id: Id)
    | Transcript(id: Id, at: nat, content: string)
    | IssueWrite(id: Id)
    | SettleWrite(id: Id)
    | Disconnect(id: Id)
    | IssueCommand(id: Id)
    | CommandEnds(id: Id)
    | AbandonCommand(id: Id)
    | StrayEnds(id: Id)
    | Settle(id: Id)
    | FinishTurnFails(id: Id)
    | Commit(id: Id)
    | CommitFails(id: Id)
    | Rename(id: Id)
    | SaveReturns(id: Id)
    | SaveFails(id: Id)
    | Close(id: Id)
    | Release(id: Id)
    | Crash(id: Id)
    | Delete

  function Put(w: World, id: Id, h: Handle): World {
    w.(handles := w.handles[id := h])
  }

  function To(w: World, id: Id, phase: Phase): World
    requires id in w.handles
  {
    Put(w, id, w.handles[id].(phase := phase))
  }

  const Fresh := Handle(Acquired, [], 0, 0, false, false, false, 0, 0)

  function Open(w: World, id: Id, phase: Phase): World {
    Put(w.(lease := Some(id), born := true), id, Fresh.(phase := phase))
  }

  /** Setup is everything before the session is published. */
  predicate InSetup(phase: Phase) {
    phase.Acquired? || phase.Creating? || phase.Restoring? || phase.Restored? || phase.Activating?
  }

  /** The backend may act: an intent has been acknowledged and the call has not returned. */
  predicate Effective(phase: Phase) {
    phase.Restored? || phase.Running?
  }

  /** `checkpointSession` is about to look at the outstanding writes. */
  predicate Committing(phase: Phase) {
    phase.Activating? || phase.Finishing?
  }

  /** A failed checkpoint leaves the session in need of recovery; during setup it is rolled back. */
  function Fail(h: Handle, duringSetup: bool): Handle {
    h.(phase := if duringSetup then RollingBack else Ready, failed := true)
  }

  function Saved(w: World, id: Id): World
    requires id in w.handles && w.handles[id].phase.Saving?
  {
    var h := w.handles[id];
    var content := h.phase.content;
    match h.phase.purpose
    case ForRestore(stored) => Put(w, id, h.(phase := Restoring(stored), records := content))
    case ForUndo(_) => To(w, id, RollingBack)
    case ForOperation(operation) => Put(w, id, h.(phase := Running(operation), records := content))
    case ForSetup => Put(w, id, h.(phase := Ready, records := content))
    case ForTurn => Put(w, id, h.(phase := Ready, records := content))
  }

  function NotSaved(w: World, id: Id): World
    requires id in w.handles && w.handles[id].phase.Saving?
  {
    var h := w.handles[id];
    match h.phase.purpose
    case ForOperation(_) => Put(w, id, Fail(h, false))
    case ForTurn => Put(w, id, Fail(h, false))
    case ForSetup => Put(w, id, Fail(h, true))
    case _ => To(w, id, RollingBack)
  }

  /** Opening: read, create the runtime, restore it behind an intent. */
  function SetupStep(w: World, id: Id, e: Event): World
    requires id in w.handles
  {
    var h := w.handles[id];
    match e
    case Read(_, sameCwd) =>
      if !h.phase.Acquired? then w
      else if Get(w.disk).Failure? || w.disk.None? || !sameCwd then To(w, id, RollingBack)
      else To(w, id, Creating(w.disk))
    case CreateRuntime(_) =>
      if !h.phase.Creating? then w
      else if h.phase.found.None? then To(w, id, Activating)
      else
        var stored := h.phase.found.value;
        To(w, id, Saving(ForRestore(stored), stored + [Intent(Restore)], false))
    case SetupFails(_) => if InSetup(h.phase) then To(w, id, RollingBack) else w
    case UndoIntent(_) =>
      if h.phase.Restoring? && Storable(h.phase.stored) then
        To(w, id, Saving(ForUndo(h.phase.stored), h.phase.stored, false))
      else w
    case ApplyRestore(_) =>
      if h.phase.Restoring? && Complete(h.phase.stored) then
        Put(w.(effects := w.effects + 1), id, h.(phase := Restored, version := Version(h.phase.stored) + 1))
      else w
    case Activate(_) => if h.phase.Restored? then To(w, id, Activating) else w
    case _ => w
  }

  /** Prompt and configure, up to the point where the backend has settled. */
  function OperationStep(w: World, id: Id, e: Event): World
    requires id in w.handles
  {
    var h := w.handles[id];
    match e
    case Reserve(_, operation) =>
      if h.phase.Ready? && !h.closing && !h.failed && !operation.Restore? then To(w, id, Reserved(operation)) else w
    case Decline(_) => if h.phase.Reserved? then To(w, id, Ready) else w
    case WriteIntent(_) =>
      if !h.phase.Reserved? then w
      else
        var operation := h.phase.operation;
        To(w, id, Saving(ForOperation(operation), h.records + [Intent(operation)], false))
    case Effect(_) =>
      if Effective(h.phase) then Put(w.(effects := w.effects + 1), id, h.(version := h.version + 1)) else w
    case Transcript(_, at, content) =>
      // updates are appended, or replace a record of this turn
      if !h.phase.Running? && !h.phase.Finishing? then w
      else if at < |h.records| && h.records[at].Update? then Put(w, id, h.(records := h.records[at := Update(content)]))
      else Put(w, id, h.(records := h.records + [Update(content)]))
    case Settle(_) => if h.phase.Running? then To(w, id, Finishing) else w
    case FinishTurnFails(_) => if h.phase.Finishing? then Put(w, id, h.(failed := true)) else w
    case _ => w
  }

  /** Client writes: an issued write counts as begun; a disconnection leaves its outcome unknown for good. */
  function WriteStep(w: World, id: Id, e: Event): World
    requires id in w.handles
  {
    var h := w.handles[id];
    match e
    case IssueWrite(_) =>
      if !h.phase.Running? then w
      else Put(w.(effects := w.effects + 1, unsettled := w.unsettled + 1), id,
               h.(version := h.version + 1, writes := h.writes + 1))
    case SettleWrite(_) =>
      if h.writes == 0 || w.unsettled == 0 then w
      else Put(w.(unsettled := w.unsettled - 1), id, h.(writes := h.writes - 1))
    case Disconnect(_) =>
      if h.writes == 0 then w else Put(w, id, h.(writes := 0, unknown := true))
    case _ => w
  }

  /**
   * Terminal commands. One is issued with the request to create its terminal and ends when its exit is reported, its
   * creation is refused or its clean-up is answered. Nobody waits longer than the turn: an abort while the creation is
   * unanswered, a clean-up that fails or times out, and the end of the turn's clean-up all abandon a command. Its
   * terminal may still answer later and be cleaned up then.
   */
  function CommandStep(w: World, id: Id, e: Event): World
    requires id in w.handles
  {
    var h := w.handles[id];
    match e
    case IssueCommand(_) =>
      if !h.phase.Running? then w
      else Put(w.(effects := w.effects + 1, running := w.running + 1), id,
               h.(version := h.version + 1, commands := h.commands + 1))
    case CommandEnds(_) =>
      if h.commands == 0 || w.running == 0 then w
      else Put(w.(running := w.running - 1), id, h.(commands := h.commands - 1))
    case AbandonCommand(_) =>
      if h.commands == 0 then w else Put(w, id, h.(commands := h.commands - 1, strays := h.strays + 1))
    case StrayEnds(_) =>
      if h.strays == 0 || w.running == 0 then w
      else Put(w.(running := w.running - 1), id, h.(strays := h.strays - 1))
    case _ => w
  }

  predicate CommandEvent(e: Event) {
    e.IssueCommand? || e.CommandEnds? || e.AbandonCommand? || e.StrayEnds?
  }

  /**
   * `checkpointSession`, from the settled writes to the save. It does not look at commands: by then the turn's
   * clean-up has ended or abandoned every one of them.
   */
  function CommitStep(w: World, id: Id, e: Event): World
    requires id in w.handles
  {
    var h := w.handles[id];
    match e
    case Commit(_) =>
      if !Committing(h.phase) || h.writes > 0 || h.commands > 0 then w
      else if h.unknown || h.failed then Put(w, id, Fail(h, h.phase.Activating?))
      else To(w, id, Saving(if h.phase.Activating? then ForSetup else ForTurn,
                            h.records + [Checkpoint(h.version)], false))
    case CommitFails(_) =>
      if Committing(h.phase) && h.writes == 0 && h.commands == 0 then Put(w, id, Fail(h, h.phase.Activating?)) else w
    case _ => w
  }

  /** A save in progress: the rename, then the report of success or failure. */
  function SaveStep(w: World, id: Id, e: Event): World
    requires id in w.handles
  {
    var h := w.handles[id];
    match e
    case Rename(_) =>
      if h.phase.Saving? && Storable(h.phase.content) then
        Put(w.(disk := Some(h.phase.content)), id, h.(phase := h.phase.(renamed := true)))
      else w
    case SaveReturns(_) => if h.phase.Saving? && h.phase.renamed then Saved(w, id) else w
    case SaveFails(_) => if h.phase.Saving? then NotSaved(w, id) else w
    case _ => w
  }

  function CloseStep(w: World, id: Id, e: Event): World
    requires id in w.handles
  {
    var h := w.handles[id];
    match e
    case Close(_) => Put(w, id, h.(closing := true))
    case Release(_) =>
      if h.phase.RollingBack? || (h.phase.Ready? && h.closing) then To(w.(lease := None), id, Closed) else w
    case _ => w
  }

  predicate SetupEvent(e: Event) {
    e.Read? || e.CreateRuntime? || e.SetupFails? || e.UndoIntent? || e.ApplyRestore? || e.Activate?
  }

  /** One step of one opener; a step that is not enabled changes nothing. */
  function Step(w: World, id: Id, e: Event): World
    requires id in w.handles
  {
    if SetupEvent(e) then SetupStep(w, id, e)
    else if e.IssueWrite? || e.SettleWrite? || e.Disconnect? then WriteStep(w, id, e)
    else if CommandEvent(e) then CommandStep(w, id, e)
    else if e.Commit? || e.CommitFails? then CommitStep(w, id, e)
    else if e.Rename? || e.SaveReturns? || e.SaveFails? then SaveStep(w, id, e)
    else if e.Close? || e.Release? then CloseStep(w, id, e)
    else OperationStep(w, id, e)
  }

  function Next(w: World, e: Event): World {
    match e
    case OpenNew(id) =>
      if w.born || w.lease.Some? || id in w.handles then w else Open(w, id, Creating(None))
    case OpenStored(id) =>
      if w.lease.Some? || id in w.handles then w else Open(w, id, Acquired)
    case Delete => if w.lease.Some? then w else w.(disk := None, born := true)
    case Crash(id) =>
      if id !in w.handles then w
      else To(if w.lease == Some(id) then w.(lease := None) else w, id, Closed)
    case _ =>
      if e.id !in w.handles || w.handles[e.id].phase.Closed? then w else Step(w, e.id, e)
  }

  function Run(w: World, events: seq<Event>): World
    decreases |events|
  {
    if events == [] then w else Run(Next(w, events[0]), events[1..])
  }

  lemma One(w: World, e: Event)
    ensures Run(w, [e]) == Next(w, e)
  {
    assert Run(w, [e]) == Run(Next(w, e), [e][1..]);
  }

  lemma Two(w: World, e: Event, f: Event)
    ensures Run(w, [e, f]) == Next(Next(w, e), f)
  {
    assert [e, f][1..] == [f];
    One(Next(w, e), f);
  }

  lemma {:induction false} RunJoins(w: World, a: seq<Event>, b: seq<Event>)
    ensures Run(w, a + b) == Run(Run(w, a), b)
    decreases |a|
  {
    if a == [] {
      assert a + b == b;
    } else {
      assert (a + b)[1..] == a[1..] + b;
      RunJoins(Next(w, a[0]), a[1..], b);
    }
  }

  const Start := World(None, false, 0, 0, 0, None, map[])
}
