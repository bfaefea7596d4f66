/** The session object and its store, one await to the next. `Persistence` is the specification. */
module PersistenceSession {
  import opened Wrappers
  import opened Persistence

  /** What happens to one save: acknowledged, or reported as failed before or after the rename. */
  datatype Outcome = Acknowledged | FailedBeforeRename | FailedAfterRename

  function AfterSave(w: World, id: Id, outcome: Outcome): World {
    match outcome
    case Acknowledged => Next(Next(w, Rename(id)), SaveReturns(id))
    case FailedBeforeRename => Next(w, SaveFails(id))
    case FailedAfterRename => Next(Next(w, Rename(id)), SaveFails(id))
  }

  /** What a save leaves behind: the file, and whether the caller may go on. */
  function Written(disk: Option<Records>, content: Records, outcome: Outcome): Option<Records> {
    if Storable(content) && !outcome.FailedBeforeRename? then Some(content) else disk
  }

  /** How the owner of a save goes on. */
  function Resumed(h: Handle, purpose: Purpose, content: Records, ok: bool): Handle {
    if !ok then Fail(h, purpose.ForSetup?)
    else h.(records := content, phase := if purpose.ForOperation? then Running(purpose.operation) else Ready)
  }

  lemma AfterSaveIs(w: World, id: Id, outcome: Outcome, h: Handle)
    requires id in w.handles && h == w.handles[id] && h.phase.Saving? && !h.phase.renamed && Storable(h.phase.content)
    requires h.phase.purpose.ForOperation? || h.phase.purpose.ForTurn? || h.phase.purpose.ForSetup?
    ensures AfterSave(w, id, outcome)
         == Put(w.(disk := Written(w.disk, h.phase.content, outcome)), id,
                Resumed(h, h.phase.purpose, h.phase.content, outcome.Acknowledged?))
  {
    if outcome.FailedBeforeRename? {
      SaveFailsIs(w, id, h);
    } else {
      var middle := h.(phase := h.phase.(renamed := true));
      var renamed := Next(w, Rename(id));
      assert renamed == Put(w.(disk := Some(h.phase.content)), id, middle);
      var last := Resumed(h, h.phase.purpose, h.phase.content, outcome.Acknowledged?);
      if outcome.Acknowledged? {
        SaveReturnsIs(renamed, id, middle);
      } else {
        SaveFailsIs(renamed, id, middle);
      }
      SamePut(w, id, middle, last);
    }
  }

  lemma SaveFailsIs(w: World, id: Id, h: Handle)
    requires id in w.handles && h == w.handles[id] && h.phase.Saving?
    requires h.phase.purpose.ForOperation? || h.phase.purpose.ForTurn? || h.phase.purpose.ForSetup?
    ensures Next(w, SaveFails(id)) == Put(w, id, Fail(h, h.phase.purpose.ForSetup?))
  {
  }

  lemma SaveReturnsIs(w: World, id: Id, h: Handle)
    requires id in w.handles && h == w.handles[id] && h.phase.Saving? && h.phase.renamed
    requires h.phase.purpose.ForOperation? || h.phase.purpose.ForTurn? || h.phase.purpose.ForSetup?
    ensures Next(w, SaveReturns(id)) == Put(w, id, Resumed(h, h.phase.purpose, h.phase.content, true))
  {
  }

  lemma SamePut(w: World, id: Id, h: Handle, k: Handle)
    ensures w.handles[id := h][id := k] == w.handles[id := k]
  {
  }

  /** The world after `beginSessionMutation`, in one piece. */
  function Begun(w: World, id: Id, outcome: Outcome): World
    requires id in w.handles && w.handles[id].phase.Reserved?
  {
    var h := w.handles[id];
    var content := h.records + [Intent(h.phase.operation)];
    Put(w.(disk := Written(w.disk, content, outcome)), id,
        Resumed(h, ForOperation(h.phase.operation), content, outcome.Acknowledged?))
  }

  /** Outstanding client writes when they are waited for: some are answered, the rest are lost with the connection. */
  function WritesSettled(w: World, id: Id, answered: nat): World
    requires id in w.handles && w.handles[id].writes <= w.unsettled
  {
    var h := w.handles[id];
    var settled := if answered < h.writes then answered else h.writes;
    Put(w.(unsettled := w.unsettled - settled), id, h.(writes := 0, unknown := h.unknown || settled < h.writes))
  }

  /** The world after `checkpointSession`; `snapshotOk` is false when the runtime has no snapshot to give. */
  function Committed(w: World, id: Id, snapshotOk: bool, outcome: Outcome): World
    requires id in w.handles && Committing(w.handles[id].phase)
  {
    var h := w.handles[id];
    var setup := h.phase.Activating?;
    var content := h.records + [Checkpoint(h.version)];
    if h.unknown || h.failed || !snapshotOk then Put(w, id, Fail(h, setup))
    else
      Put(w.(disk := Written(w.disk, content, outcome)), id,
          Resumed(h, if setup then ForSetup else ForTurn, content, outcome.Acknowledged?))
  }

  /** The clean-up of terminals: some commands are known to have ended by it. */
  function TerminalsCleaned(w: World, id: Id, ended: nat): World
    requires id in w.handles && w.handles[id].commands <= w.running
  {
    var h := w.handles[id];
    var n := if ended < h.commands then ended else h.commands;
    Put(w.(running := w.running - n), id, h.(commands := h.commands - n))
  }

  /** The commands still left are nobody's any more. */
  function CommandsLeft(w: World, id: Id): World
    requires id in w.handles
  {
    var h := w.handles[id];
    Put(w, id, h.(commands := 0, strays := h.strays + h.commands))
  }

  /** The end of `finishTurn`, with or without a failure, and the publication of the selectors, if any. */
  function TurnFinished(w: World, id: Id, finished: bool, config: Option<string>): World
    requires id in w.handles
  {
    var h := w.handles[id];
    Put(w, id, h.(failed := h.failed || !finished,
                  records := h.records + if config.Some? then [Update(config.value)] else []))
  }

  /** The world when the backend has settled, the turn's terminals were cleaned up and its selectors published. */
  function BackendSettled(w: World, id: Id, ended: nat, finished: bool, config: Option<string>): World
    requires id in w.handles && w.handles[id].commands <= w.running
  {
    TurnFinished(TerminalsCleaned(To(w, id, Finishing), id, ended), id, finished, config)
  }

  /** What `checkpointSession` finds when it looks: no write outstanding, and no command anybody waits for. */
  function Looked(w: World, id: Id, answered: nat): World
    requires id in w.handles && w.handles[id].writes <= w.unsettled
  {
    CommandsLeft(WritesSettled(w, id, answered), id)
  }

  lemma LookedIs(w: World, id: Id, answered: nat)
    requires id in w.handles && w.handles[id].writes <= w.unsettled
    ensures var h := w.handles[id];
            var n := if answered < h.writes then answered else h.writes;
            Looked(w, id, answered)
            == Put(w.(unsettled := w.unsettled - n), id,
                   h.(writes := 0, unknown := h.unknown || n < h.writes,
                      commands := 0, strays := h.strays + h.commands))
  {
    SamePut(w, id, WritesSettled(w, id, answered).handles[id], Looked(w, id, answered).handles[id]);
  }

  /** The world when disposal was asked for: the lease is given up at once, or when the operation has settled. */
  function Disposed(w: World, id: Id): World
    requires id in w.handles
  {
    var h := w.handles[id];
    if h.phase.Closed? then w
    else if h.phase.Ready? || h.phase.RollingBack? then
      Put(w.(lease := None), id, h.(closing := true, phase := Closed))
    else Put(w, id, h.(closing := true))
  }

  /** The file of one session: replaced as a whole or left alone. */
  class Store {
    var disk: Option<Records>

    constructor ()
      ensures disk == None
    {
      disk := None;
    }

    method Get() returns (r: Result<Option<Records>, GetError>)
      ensures r == Persistence.Get(disk)
      ensures r.Success? && r.value.Some? ==> Complete(r.value.value)
    {
      if disk.Some? && !Complete(disk.value) {
        return Failure(IncompleteMutation);
      }
      return Success(disk);
    }

    method Save(content: Records, outcome: Outcome) returns (ok: bool)
      modifies this
      ensures ok == (outcome.Acknowledged? && Storable(content))
      ensures disk == if Storable(content) && !outcome.FailedBeforeRename? then Some(content) else old(disk)
    {
      if !Storable(content) || outcome.FailedBeforeRename? {
        return false;
      }
      disk := Some(content);
      return outcome.Acknowledged?;
    }
  }

  class Session {
    const id: Id
    const store: Store
    var records: Records
    var phase: Phase
    var version: nat
    var writes: nat
    var unknown: bool
    var failed: bool
    var closing: bool
    var released: bool
    var commands: nat
    ghost var strays: nat
    ghost var effects: nat
    ghost var unsettled: nat
    ghost var running: nat

    ghost function View(): World
      reads this, store
    {
      World(store.disk, true, effects, unsettled, running, if released then None else Some(id),
            map[id := Handle(phase, records, version, writes, unknown, failed, closing, commands, strays)])
    }

    ghost predicate Valid()
      reads this
    {
      writes <= unsettled && commands + strays <= running && (released <==> phase.Closed?)
    }

    /** A session about to be activated: its runtime accounts for everything begun so far. */
    constructor (id: Id, store: Store, records: Records, version: nat)
      ensures Valid() && this.store == store && this.id == id
      ensures View() == World(store.disk, true, version, 0, 0, Some(id),
                              map[id := Handle(Activating, records, version, 0, false, false, false, 0, 0)])
    {
      this.id, this.store, this.records, this.version := id, store, records, version;
      phase, writes, unknown, failed, closing, released := Activating, 0, false, false, false, false;
      commands, strays, effects, unsettled, running := 0, 0, version, 0, 0;
    }

    /** `exclusiveSession`: admits one operation at a time and none once closing or failed. */
    method Admit(operation: Mutation) returns (admitted: bool)
      requires Valid() && operation != Restore
      modifies this
      ensures Valid()
      ensures View() == if old(phase).Closed? then old(View()) else Next(old(View()), Event.Reserve(id, operation))
      ensures admitted == (old(phase) == Ready && !closing && !failed)
    {
      admitted := phase == Ready && !closing && !failed;
      if admitted {
        phase := Reserved(operation);
      }
    }

    method BeginSessionMutation(outcome: Outcome) returns (ok: bool)
      requires Valid() && phase.Reserved?
      modifies this, store
      ensures Valid() && View() == Begun(old(View()), id, outcome)
      ensures ok ==> phase.Running? && store.disk.Some? && !Complete(store.disk.value)
      ensures !ok ==> failed && phase == Ready
    {
      var operation := phase.operation;
      var content := records + [Intent(operation)];
      ok := store.Save(content, outcome);
      if ok {
        records := content;
        phase := Running(operation);
      } else {
        failed := true;
        phase := Ready;
      }
    }

    /** Cleans up the terminals of the turn; a clean-up that is not answered in time is given up on. */
    method CleanUp(ended: nat)
      requires Valid() && !phase.Closed?
      modifies this`commands, this`running
      ensures Valid() && View() == TerminalsCleaned(old(View()), id, ended)
    {
      var left := ended;
      while commands > 0 && left > 0
        invariant commands + strays <= running && 0 <= left <= ended
        invariant old(commands) - commands == ended - left == old(running) - running
        decreases commands
      {
        commands, running, left := commands - 1, running - 1, left - 1;
      }
    }

    /** The backend call has returned; the turn is cleaned up and its selectors published. */
    method SettleBackend(ended: nat, finished: bool, config: Option<string>)
      requires Valid() && phase.Running?
      modifies this
      ensures Valid() && View() == BackendSettled(old(View()), id, ended, finished, config)
    {
      phase := Finishing;
      assert View() == To(old(View()), id, Finishing);
      CleanUp(ended);
      FinishTurn(finished, config);
    }

    method FinishTurn(finished: bool, config: Option<string>)
      requires Valid()
      modifies this`failed, this`records
      ensures Valid() && View() == TurnFinished(old(View()), id, finished, config)
    {
      if !finished {
        failed := true;
      }
      assert records + [] == records;
      if config.Some? {
        records := records + [Update(config.value)];
      }
    }

    /** Waits for every issued write, until it is answered or the connection is gone. */
    method SettleWrites(answered: nat)
      requires Valid() && !phase.Closed?
      modifies this
      ensures Valid() && View() == WritesSettled(old(View()), id, answered)
    {
      var left := answered;
      while writes > 0 && left > 0
        invariant writes <= unsettled && 0 <= left <= answered
        invariant phase == old(phase) && records == old(records) && version == old(version) && closing == old(closing)
        invariant unknown == old(unknown) && failed == old(failed) && released == old(released)
        invariant effects == old(effects) && commands == old(commands) && strays == old(strays)
        invariant running == old(running)
        invariant old(writes) - writes == answered - left && old(unsettled) - unsettled == answered - left
        decreases writes
      {
        writes, unsettled, left := writes - 1, unsettled - 1, left - 1;
      }
      if writes > 0 {
        writes, unknown := 0, true;
      }
    }

    /** `checkpointSession`, of a turn or of the setup. From here on a command still unanswered is nobody's. */
    method CheckpointSession(answered: nat, snapshotOk: bool, outcome: Outcome) returns (ok: bool)
      requires Valid() && Committing(phase)
      modifies this, store
      ensures Valid()
      ensures View() == Committed(Looked(old(View()), id, answered), id, snapshotOk, outcome)
      ensures ok == !failed
      ensures ok ==> phase == Ready && store.disk == Some(records) && records == old(records) + [Checkpoint(version)]
      ensures !ok ==> phase == if old(phase).Activating? then RollingBack else Ready
    {
      LookedIs(View(), id, answered);
      SettleWrites(answered);
      commands, strays := 0, strays + commands;
      assert View() == Looked(old(View()), id, answered);
      ok := WriteCheckpoint(snapshotOk, outcome);
    }

    method WriteCheckpoint(snapshotOk: bool, outcome: Outcome) returns (ok: bool)
      requires Valid() && Committing(phase)
      modifies this, store
      ensures Valid() && View() == Committed(old(View()), id, snapshotOk, outcome)
      ensures ok == !failed
      ensures ok ==> phase == Ready && store.disk == Some(records) && records == old(records) + [Checkpoint(version)]
      ensures !ok ==> phase == if old(phase).Activating? then RollingBack else Ready
    {
      var content := records + [Checkpoint(version)];
      ok := !unknown && !failed && snapshotOk;
      if ok {
        ok := store.Save(content, outcome);
      }
      if ok {
        records := content;
        phase := Ready;
      } else {
        failed := true;
        phase := if phase.Activating? then RollingBack else Ready;
      }
    }

    /**
     * `disposeSession`, also while an operation is active, and again when that has settled: new work is refused at
     * once, the lease is given up when nothing is active, and a second disposal changes nothing.
     */
    method DisposeSession()
      requires Valid()
      modifies this
      ensures Valid() && View() == Disposed(old(View()), id)
      ensures phase.Closed? || closing
    {
      if phase.Closed? {
        return;
      }
      closing := true;
      if phase.Ready? || phase.RollingBack? {
        phase := Closed;
        released := true;
      }
    }
  }

  lemma Saves(w: World, e: Event, id: Id, outcome: Outcome)
    ensures exists events :: Run(w, events) == AfterSave(Next(w, e), id, outcome)
  {
    var last := if outcome.Acknowledged? then SaveReturns(id) else SaveFails(id);
    var events := if outcome.FailedBeforeRename? then [e, last] else [e, Rename(id), last];
    var rest := events[1..];
    assert Run(w, events) == Run(Next(w, e), rest);
    if outcome.FailedBeforeRename? {
      assert rest == [last];
      One(Next(w, e), last);
    } else {
      assert rest == [Rename(id), last] && rest[1..] == [last];
      One(Next(Next(w, e), Rename(id)), last);
    }
    assert Run(w, events) == AfterSave(Next(w, e), id, outcome);
  }

  lemma IntentStarts(w: World, id: Id, h: Handle)
    requires id in w.handles && h == w.handles[id] && h.phase.Reserved?
    ensures Next(w, WriteIntent(id))
         == To(w, id, Saving(ForOperation(h.phase.operation), h.records + [Intent(h.phase.operation)], false))
  {
  }

  /** Beginning a mutation is a run of single steps, so crash consistency covers every point inside it. */
  lemma BegunIsRun(w: World, id: Id, outcome: Outcome)
    requires id in w.handles && w.handles[id].phase.Reserved?
    ensures exists events :: Run(w, events) == Begun(w, id, outcome)
  {
    IntentStarts(w, id, w.handles[id]);
    var started := Next(w, WriteIntent(id));
    AfterSaveIs(started, id, outcome, started.handles[id]);
    SamePut(w, id, started.handles[id], Begun(w, id, outcome).handles[id]);
    Saves(w, WriteIntent(id), id, outcome);
  }

  // ---- Clean-up ----

  lemma SettleIs(w: World, id: Id, h: Handle)
    requires id in w.handles && h == w.handles[id] && h.phase.Running?
    ensures Next(w, Settle(id)) == Put(w, id, h.(phase := Finishing))
  {
  }

  lemma FinishFailsIs(w: World, id: Id, h: Handle)
    requires id in w.handles && h == w.handles[id] && h.phase.Finishing?
    ensures Next(w, FinishTurnFails(id)) == Put(w, id, h.(failed := true))
  {
  }

  lemma PublishIs(w: World, id: Id, h: Handle, config: string)
    requires id in w.handles && h == w.handles[id] && h.phase.Finishing?
    ensures Next(w, Transcript(id, |h.records|, config)) == Put(w, id, h.(records := h.records + [Update(config)]))
  {
  }

  function FinishEvents(id: Id, at: nat, finished: bool, config: Option<string>): seq<Event> {
    (if finished then [] else [FinishTurnFails(id)])
    + (if config.Some? then [Transcript(id, at, config.value)] else [])
  }

  lemma Maybe(w: World, made: bool, e: Event)
    ensures Run(w, if made then [e] else []) == if made then Next(w, e) else w
  {
    One(w, e);
  }

  lemma FinishedIsRun(w: World, id: Id, finished: bool, config: Option<string>)
    requires id in w.handles && w.handles[id].phase.Finishing?
    ensures Run(w, FinishEvents(id, |w.handles[id].records|, finished, config)) == TurnFinished(w, id, finished, config)
  {
    var h := w.handles[id];
    var first := if finished then [] else [FinishTurnFails(id)];
    var second := if config.Some? then [Transcript(id, |h.records|, config.value)] else [];
    RunJoins(w, first, second);
    Maybe(w, !finished, FinishTurnFails(id));
    FinishFailsIs(w, id, h);
    var b := h.(failed := h.failed || !finished);
    assert w.handles[id := h] == w.handles;
    Published(Put(w, id, b), id, b, config);
    SamePut(w, id, b, TurnFinished(w, id, finished, config).handles[id]);
  }

  lemma CommandStepIs(w: World, id: Id, h: Handle)
    requires id in w.handles && h == w.handles[id] && !h.phase.Closed? && 0 < h.commands <= w.running
    ensures Next(w, CommandEnds(id)) == Put(w.(running := w.running - 1), id, h.(commands := h.commands - 1))
    ensures Next(w, AbandonCommand(id)) == Put(w, id, h.(commands := h.commands - 1, strays := h.strays + 1))
  {
  }

  function Times(n: nat, e: Event): seq<Event> {
    if n == 0 then [] else [e] + Times(n - 1, e)
  }

  function EndEvents(id: Id, commands: nat, ended: nat): seq<Event> {
    Times(if ended < commands then ended else commands, CommandEnds(id))
  }

  lemma CleanedNext(w: World, id: Id, ended: nat)
    requires id in w.handles && 0 < w.handles[id].commands <= w.running && ended > 0
    ensures var h := w.handles[id];
            var next := Put(w.(running := w.running - 1), id, h.(commands := h.commands - 1));
            TerminalsCleaned(next, id, ended - 1) == TerminalsCleaned(w, id, ended)
  {
    var h := w.handles[id];
    SamePut(w, id, h.(commands := h.commands - 1), TerminalsCleaned(w, id, ended).handles[id]);
  }

  lemma LeftNext(w: World, id: Id)
    requires id in w.handles && 0 < w.handles[id].commands
    ensures var h := w.handles[id];
            CommandsLeft(Put(w, id, h.(commands := h.commands - 1, strays := h.strays + 1)), id) == CommandsLeft(w, id)
  {
    var h := w.handles[id];
    SamePut(w, id, h.(commands := h.commands - 1, strays := h.strays + 1), CommandsLeft(w, id).handles[id]);
  }

  /** Cleaning up terminals is a run of single steps. */
  lemma {:induction false} CleanedIsRun(w: World, id: Id, ended: nat)
    requires id in w.handles && !w.handles[id].phase.Closed? && w.handles[id].commands <= w.running
    ensures Run(w, EndEvents(id, w.handles[id].commands, ended)) == TerminalsCleaned(w, id, ended)
    decreases w.handles[id].commands
  {
    var h := w.handles[id];
    if h.commands == 0 || ended == 0 {
      assert w.handles[id := h] == w.handles;
    } else {
      CommandStepIs(w, id, h);
      var events, next := EndEvents(id, h.commands, ended), Next(w, CommandEnds(id));
      assert events[1..] == EndEvents(id, h.commands - 1, ended - 1);
      CleanedIsRun(next, id, ended - 1);
      CleanedNext(w, id, ended);
    }
  }

  /** So is giving up on the commands that are left. */
  lemma {:induction false} LeftIsRun(w: World, id: Id)
    requires id in w.handles && !w.handles[id].phase.Closed? && w.handles[id].commands <= w.running
    ensures Run(w, Times(w.handles[id].commands, AbandonCommand(id))) == CommandsLeft(w, id)
    decreases w.handles[id].commands
  {
    var h := w.handles[id];
    if h.commands == 0 {
      assert w.handles[id := h] == w.handles;
    } else {
      CommandStepIs(w, id, h);
      var events, next := Times(h.commands, AbandonCommand(id)), Next(w, AbandonCommand(id));
      assert events[1..] == Times(h.commands - 1, AbandonCommand(id));
      LeftIsRun(next, id);
      LeftNext(w, id);
    }
  }

  /** The clean-up of a turn is a run of single steps. */
  lemma SettledIsRun(w: World, id: Id, ended: nat, finished: bool, config: Option<string>)
    requires id in w.handles && w.handles[id].phase.Running? && w.handles[id].commands <= w.running
    ensures exists events :: Run(w, events) == BackendSettled(w, id, ended, finished, config)
  {
    var settled := To(w, id, Finishing);
    var cleaned := TerminalsCleaned(settled, id, ended);
    var first, second := [Settle(id)], EndEvents(id, settled.handles[id].commands, ended);
    var third := FinishEvents(id, |cleaned.handles[id].records|, finished, config);
    One(w, Settle(id));
    SettleIs(w, id, w.handles[id]);
    CleanedIsRun(settled, id, ended);
    FinishedIsRun(cleaned, id, finished, config);
    RunJoins(w, first, second);
    RunJoins(w, first + second, third);
    assert Run(w, first + second + third) == BackendSettled(w, id, ended, finished, config);
  }

  lemma Published(w: World, id: Id, h: Handle, config: Option<string>)
    requires id in w.handles && h == w.handles[id] && h.phase.Finishing?
    ensures Run(w, if config.Some? then [Transcript(id, |h.records|, config.value)] else [])
         == Put(w, id, h.(records := h.records + if config.Some? then [Update(config.value)] else []))
  {
    if config.Some? {
      One(w, Transcript(id, |h.records|, config.value));
      PublishIs(w, id, h, config.value);
    } else {
      assert h.records + [] == h.records;
      assert w.handles[id := h] == w.handles;
    }
  }

  // ---- Disposal ----

  lemma CloseIs(w: World, id: Id, h: Handle)
    requires id in w.handles && h == w.handles[id] && !h.phase.Closed?
    ensures Next(w, Close(id)) == Put(w, id, h.(closing := true))
  {
  }

  lemma ReleaseIs(w: World, id: Id, h: Handle)
    requires id in w.handles && h == w.handles[id] && h.closing
    ensures Next(w, Release(id))
         == if h.phase.Ready? || h.phase.RollingBack? then Put(w.(lease := None), id, h.(phase := Closed)) else w
  {
  }

  /** So is disposal, whenever it is asked for. */
  lemma DisposedIsRun(w: World, id: Id)
    requires id in w.handles
    ensures Run(w, [Close(id), Release(id)]) == Disposed(w, id)
  {
    var h := w.handles[id];
    Two(w, Close(id), Release(id));
    if !h.phase.Closed? {
      CloseIs(w, id, h);
      var closing := Put(w, id, h.(closing := true));
      ReleaseIs(closing, id, closing.handles[id]);
      SamePut(w, id, closing.handles[id], Disposed(w, id).handles[id]);
    }
  }

  // ---- Checkpoints ----

  lemma SettleWriteIs(w: World, id: Id, h: Handle)
    requires id in w.handles && h == w.handles[id] && !h.phase.Closed? && 0 < h.writes <= w.unsettled
    ensures Next(w, SettleWrite(id)) == Put(w.(unsettled := w.unsettled - 1), id, h.(writes := h.writes - 1))
    ensures Next(w, Disconnect(id)) == Put(w, id, h.(writes := 0, unknown := true))
  {
  }

  function SettlingEvents(id: Id, writes: nat, answered: nat): seq<Event> {
    if writes == 0 then []
    else if answered == 0 then [Disconnect(id)]
    else [SettleWrite(id)] + SettlingEvents(id, writes - 1, answered - 1)
  }

  /** Waiting for the writes is a run of single steps. */
  lemma {:induction false} WritesSettledIsRun(w: World, id: Id, answered: nat)
    requires id in w.handles && !w.handles[id].phase.Closed? && w.handles[id].writes <= w.unsettled
    ensures Run(w, SettlingEvents(id, w.handles[id].writes, answered)) == WritesSettled(w, id, answered)
    decreases w.handles[id].writes
  {
    var h := w.handles[id];
    if h.writes == 0 {
      assert w.handles[id := h] == w.handles;
    } else {
      SettleWriteIs(w, id, h);
      if answered == 0 {
        One(w, Disconnect(id));
      } else {
        var events := SettlingEvents(id, h.writes, answered);
        var next := Next(w, SettleWrite(id));
        assert events[1..] == SettlingEvents(id, h.writes - 1, answered - 1);
        WritesSettledIsRun(next, id, answered - 1);
        SamePut(w, id, next.handles[id], WritesSettled(w, id, answered).handles[id]);
      }
    }
  }

  lemma CommitStarts(w: World, id: Id, h: Handle)
    requires id in w.handles && h == w.handles[id] && Committing(h.phase) && h.writes == 0 && !h.unknown && !h.failed
    requires h.commands == 0
    ensures var why := if h.phase.Activating? then ForSetup else ForTurn;
            Next(w, Commit(id)) == To(w, id, Saving(why, h.records + [Checkpoint(h.version)], false))
  {
  }

  lemma SavedCommitIsRun(w: World, id: Id, outcome: Outcome)
    requires id in w.handles && Committing(w.handles[id].phase) && w.handles[id].writes == 0
    requires w.handles[id].commands == 0
    requires !w.handles[id].unknown && !w.handles[id].failed
    ensures exists events :: Run(w, events) == Committed(w, id, true, outcome)
  {
    var h := w.handles[id];
    CommitStarts(w, id, h);
    var started := Next(w, Commit(id));
    AfterSaveIs(started, id, outcome, started.handles[id]);
    SamePut(w, id, started.handles[id], Committed(w, id, true, outcome).handles[id]);
    Saves(w, Commit(id), id, outcome);
  }

  lemma RefusedCommitIsRun(w: World, id: Id, outcome: Outcome)
    requires id in w.handles && Committing(w.handles[id].phase) && w.handles[id].writes == 0
    requires w.handles[id].commands == 0
    requires w.handles[id].unknown || w.handles[id].failed
    ensures Run(w, [Commit(id)]) == Committed(w, id, true, outcome) == Committed(w, id, false, outcome)
  {
    One(w, Commit(id));
  }

  lemma NoSnapshotIsRun(w: World, id: Id, outcome: Outcome)
    requires id in w.handles && Committing(w.handles[id].phase) && w.handles[id].writes == 0
    requires w.handles[id].commands == 0
    ensures Run(w, [CommitFails(id)]) == Committed(w, id, false, outcome)
  {
    One(w, CommitFails(id));
  }

  lemma SettledCommitIsRun(w: World, id: Id, snapshotOk: bool, outcome: Outcome)
    requires id in w.handles && Committing(w.handles[id].phase) && w.handles[id].writes == 0
    requires w.handles[id].commands == 0
    ensures exists events :: Run(w, events) == Committed(w, id, snapshotOk, outcome)
  {
    if w.handles[id].unknown || w.handles[id].failed {
      RefusedCommitIsRun(w, id, outcome);
    } else if !snapshotOk {
      NoSnapshotIsRun(w, id, outcome);
    } else {
      SavedCommitIsRun(w, id, outcome);
    }
  }

  /** So is a checkpoint, of a turn or of the setup, outstanding writes and commands included. */
  lemma CommittedIsRun(w: World, id: Id, answered: nat, snapshotOk: bool, outcome: Outcome)
    requires id in w.handles && Committing(w.handles[id].phase)
    requires w.handles[id].writes <= w.unsettled && w.handles[id].commands <= w.running
    ensures exists events :: Run(w, events) == Committed(Looked(w, id, answered), id, snapshotOk, outcome)
  {
    var left := Looked(w, id, answered);
    var first := LookedIsRun(w, id, answered);
    LookedIs(w, id, answered);
    SettledCommitIsRun(left, id, snapshotOk, outcome);
    var second :| Run(left, second) == Committed(left, id, snapshotOk, outcome);
    RunJoins(w, first, second);
  }

  lemma LookedIsRun(w: World, id: Id, answered: nat) returns (events: seq<Event>)
    requires id in w.handles && !w.handles[id].phase.Closed?
    requires w.handles[id].writes <= w.unsettled && w.handles[id].commands <= w.running
    ensures Run(w, events) == Looked(w, id, answered)
  {
    var first := SettlingEvents(id, w.handles[id].writes, answered);
    var second := Times(w.handles[id].commands, AbandonCommand(id));
    WritesSettledIsRun(w, id, answered);
    LeftIsRun(WritesSettled(w, id, answered), id);
    RunJoins(w, first, second);
    events := first + second;
  }
}
