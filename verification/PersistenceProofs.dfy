/** Crash consistency of the write-ahead protocol, over every run. */
module PersistenceProofs {
  import opened Wrappers
  import opened Persistence

  /** The file, if any, marks a mutation as under way. */
  predicate Marked(w: World) {
    w.disk.Some? && Storable(w.disk.value) && !Complete(w.disk.value)
  }

  /** The content may be shown to a later opener: it accounts for everything that ever began. */
  predicate Accurate(w: World, records: Records) {
    Complete(records) ==> Version(records) == w.effects && w.unsettled == 0
  }

  predicate Synced(w: World, h: Handle) {
    h.version == w.effects && (h.unknown || w.unsettled == h.writes)
  }

  predicate Quiet(h: Handle) {
    h.writes == 0 && h.commands == 0 && !h.unknown && !h.failed
  }

  predicate SavingOk(w: World, h: Handle)
    requires h.phase.Saving?
  {
    var content := h.phase.content;
    && Quiet(h) && Storable(content) && Accurate(w, content)
    && (h.phase.renamed ==> w.disk == Some(content))
    && match h.phase.purpose
       case ForRestore(stored) => Complete(stored) && Accurate(w, stored) && !Complete(content)
       case ForUndo(_) => true
       case ForOperation(_) => Synced(w, h) && !Complete(content)
       case _ => Synced(w, h) && Complete(content)
  }

  predicate HandleOk(w: World, h: Handle) {
    match h.phase
    case Acquired => Quiet(h)
    case Creating(None) => Quiet(h) && Synced(w, h) && w.disk.None?
    case Creating(Some(stored)) => Quiet(h) && w.disk == Some(stored) && Complete(stored)
    case Restoring(stored) => Quiet(h) && Marked(w) && Complete(stored) && Accurate(w, stored)
    case Restored => Quiet(h) && Marked(w) && Synced(w, h)
    case Activating => Quiet(h) && Synced(w, h) && (w.disk.None? || Marked(w))
    case Ready =>
      && h.writes == 0 && h.commands == 0
      && (h.failed || (Quiet(h) && Synced(w, h) && w.disk.Some? && Complete(w.disk.value)))
    case Reserved(_) => Quiet(h) && Synced(w, h) && w.disk.Some? && Complete(w.disk.value)
    case Running(_) => Marked(w) && Synced(w, h) && !h.failed
    case Finishing => Marked(w) && Synced(w, h)
    case Saving(_, _, _) => SavingOk(w, h)
    case RollingBack => h.writes == 0 && h.commands == 0
    case Closed => false
  }

  predicate Inv(w: World) {
    && (w.disk.Some? ==> Storable(w.disk.value) && Accurate(w, w.disk.value))
    && (!w.born ==> w.disk.None? && w.effects == 0 && w.unsettled == 0 && w.lease.None?)
    && (w.lease.Some? ==> w.lease.value in w.handles && HandleOk(w, w.handles[w.lease.value]))
    && (forall id :: id in w.handles && w.lease != Some(id) ==> w.handles[id].phase.Closed?)
  }

  /** What is left to show when only the holder's own handle changes, besides the file and the counters. */
  lemma Replaced(w: World, t: World, id: Id)
    requires Inv(w) && w.lease == Some(id) && t.lease == Some(id) && t.born && id in t.handles
    requires t.handles == w.handles[id := t.handles[id]]
    requires t.disk.Some? ==> Storable(t.disk.value) && Accurate(t, t.disk.value)
    requires HandleOk(t, t.handles[id])
    ensures Inv(t)
  {
  }

  lemma SetupKeeps(w: World, id: Id, e: Event)
    requires Inv(w) && w.lease == Some(id)
    ensures Inv(SetupStep(w, id, e))
    ensures SetupStep(w, id, e).disk == w.disk
    ensures SetupStep(w, id, e).effects != w.effects ==> e.ApplyRestore? && w.handles[id].phase.Restoring? && Marked(w)
  {
  }

  /**
   * An abort after the restore intent was acknowledged and before the runtime was touched: however the save that
   * undoes the intent ends, no effect has begun, and if its rename took effect the stored session is as it was found.
   */
  lemma AbortUndone(w: World, id: Id, renamed: bool, ok: bool)
    requires Inv(w) && w.lease == Some(id) && w.handles[id].phase.Restoring? && (ok ==> renamed)
    ensures var stored := w.handles[id].phase.stored;
            var t := Undone(w, id, renamed, ok);
            && Inv(t) && t.effects == w.effects && t.lease == Some(id) && t.handles[id].phase.RollingBack?
            && t.disk == (if renamed then Some(stored) else w.disk)
            && (renamed ==> Get(t.disk) == Success(Some(stored)) && Version(stored) == t.effects)
            && (!renamed ==> Get(t.disk) == Failure(IncompleteMutation))
  {
    var stored := w.handles[id].phase.stored;
    var started := SetupStep(w, id, UndoIntent(id));
    assert started == To(w, id, Saving(ForUndo(stored), stored, false));
    SetupKeeps(w, id, UndoIntent(id));
    if renamed {
      RenameKeeps(started, id);
      UndoEnds(SaveStep(started, id, Rename(id)), id, ok);
    } else {
      UndoEnds(started, id, ok);
    }
  }

  /** The save that undoes an intent, with its rename or without, and its report. */
  function Undone(w: World, id: Id, renamed: bool, ok: bool): World
    requires id in w.handles
  {
    var started := SetupStep(w, id, UndoIntent(id));
    var moved := if renamed then SaveStep(started, id, Rename(id)) else started;
    SaveStep(moved, id, if ok then SaveReturns(id) else SaveFails(id))
  }

  lemma UndoEnds(w: World, id: Id, ok: bool)
    requires Inv(w) && w.lease == Some(id) && w.handles[id].phase.Saving? && w.handles[id].phase.purpose.ForUndo?
    requires ok ==> w.handles[id].phase.renamed
    ensures var t := SaveStep(w, id, if ok then SaveReturns(id) else SaveFails(id));
            && Inv(t) && t == To(w, id, RollingBack)
  {
  }

  lemma OperationKeeps(w: World, id: Id, e: Event)
    requires Inv(w) && w.lease == Some(id)
    ensures Inv(OperationStep(w, id, e))
  {
    if e.Transcript? {
      TranscriptKeeps(w, id, e);
    } else if e.Effect? {
      EffectKeeps(w, id);
    }
  }

  lemma TranscriptKeeps(w: World, id: Id, e: Event)
    requires Inv(w) && w.lease == Some(id) && e.Transcript?
    ensures Inv(OperationStep(w, id, e))
  {
  }

  lemma EffectKeeps(w: World, id: Id)
    requires Inv(w) && w.lease == Some(id)
    ensures Inv(OperationStep(w, id, Effect(id)))
  {
  }

  lemma ClientWriteKeeps(w: World, id: Id, e: Event)
    requires Inv(w) && w.lease == Some(id)
    ensures Inv(WriteStep(w, id, e))
  {
  }

  lemma CommandKeeps(w: World, id: Id, e: Event)
    requires Inv(w) && w.lease == Some(id)
    ensures Inv(CommandStep(w, id, e))
  {
    var t := CommandStep(w, id, e);
    assert HandleOk(t, t.handles[id]);
    Replaced(w, t, id);
  }

  lemma CommitKeeps(w: World, id: Id, e: Event)
    requires Inv(w) && w.lease == Some(id)
    ensures Inv(CommitStep(w, id, e))
  {
  }

  /**
   * The decision of a checkpoint, once the writes have settled: an unknown write, an earlier failure or a missing
   * snapshot writes nothing and leaves the session failed, or its setup rolled back; otherwise the transcript and a
   * checkpoint of the current version are on their way to the file.
   */
  lemma CommitDecides(w: World, id: Id, snapshotOk: bool)
    requires Inv(w) && w.lease == Some(id) && Committing(w.handles[id].phase)
    requires w.handles[id].writes == 0 && w.handles[id].commands == 0
    ensures var h := w.handles[id];
            var t := CommitStep(w, id, if snapshotOk then Commit(id) else CommitFails(id));
            var k := t.handles[id];
            && t.disk == w.disk && t.effects == w.effects && t.lease == w.lease
            && (h.unknown || h.failed || !snapshotOk ==>
                  k.failed && k.phase == if h.phase.Activating? then RollingBack else Ready)
            && (!h.unknown && !h.failed && snapshotOk ==>
                  && k.phase.Saving? && !k.phase.renamed && k.phase.content == h.records + [Checkpoint(h.version)]
                  && h.version == w.effects && w.unsettled == 0)
  {
  }

  lemma RenameKeeps(w: World, id: Id)
    requires Inv(w) && w.lease == Some(id)
    ensures Inv(SaveStep(w, id, Rename(id)))
  {
  }

  lemma SaveReturnsKeeps(w: World, id: Id)
    requires Inv(w) && w.lease == Some(id)
    ensures Inv(SaveStep(w, id, SaveReturns(id)))
  {
    var t := SaveStep(w, id, SaveReturns(id));
    if w.handles[id].phase.Saving? && w.handles[id].phase.renamed {
      assert HandleOk(t, t.handles[id]);
      Replaced(w, t, id);
    }
  }

  lemma SaveFailsKeeps(w: World, id: Id)
    requires Inv(w) && w.lease == Some(id)
    ensures Inv(SaveStep(w, id, SaveFails(id)))
  {
    var t := SaveStep(w, id, SaveFails(id));
    if w.handles[id].phase.Saving? {
      assert HandleOk(t, t.handles[id]);
      Replaced(w, t, id);
    }
  }

  lemma SaveKeeps(w: World, id: Id, e: Event)
    requires w.lease == Some(id) && Inv(w) && (e == Rename(id) || e == SaveReturns(id) || e == SaveFails(id))
    ensures Inv(SaveStep(w, id, e))
  {
    if e.Rename? {
      RenameKeeps(w, id);
    } else if e.SaveReturns? {
      SaveReturnsKeeps(w, id);
    } else {
      SaveFailsKeeps(w, id);
    }
  }

  lemma CloseKeeps(w: World, id: Id, e: Event)
    requires Inv(w) && w.lease == Some(id)
    ensures Inv(CloseStep(w, id, e))
  {
  }

  predicate OwnStep(e: Event) {
    !e.OpenNew? && !e.OpenStored? && !e.Delete? && !e.Crash?
  }

  lemma StepKeeps(w: World, id: Id, e: Event)
    requires Inv(w) && w.lease == Some(id) && OwnStep(e) && e.id == id
    ensures Inv(Step(w, id, e))
  {
    if SetupEvent(e) {
      SetupKeeps(w, id, e);
    } else if e.IssueWrite? || e.SettleWrite? || e.Disconnect? {
      ClientWriteKeeps(w, id, e);
    } else if CommandEvent(e) {
      CommandKeeps(w, id, e);
    } else if e.Commit? || e.CommitFails? {
      CommitKeeps(w, id, e);
    } else if e.Rename? || e.SaveReturns? || e.SaveFails? {
      SaveKeeps(w, id, e);
    } else if e.Close? || e.Release? {
      CloseKeeps(w, id, e);
    } else {
      OperationKeeps(w, id, e);
    }
  }

  /** An opener that has not closed holds the lease, so its steps are those of the holder. */
  lemma HolderSteps(w: World, e: Event)
    requires Inv(w) && OwnStep(e)
    ensures Next(w, e) == w || (w.lease == Some(e.id) && Next(w, e) == Step(w, e.id, e))
  {
  }

  lemma OpenKeeps(w: World, e: Event)
    requires Inv(w) && !OwnStep(e)
    ensures Inv(Next(w, e))
  {
    if e.Crash? {
      CrashKeeps(w, e.id);
    }
  }

  lemma CrashKeeps(w: World, id: Id)
    requires Inv(w)
    ensures Inv(Next(w, Crash(id)))
  {
  }

  lemma NextKeeps(w: World, e: Event)
    requires Inv(w)
    ensures Inv(Next(w, e))
  {
    if OwnStep(e) {
      HolderSteps(w, e);
      if w.lease == Some(e.id) {
        StepKeeps(w, e.id, e);
      }
    } else {
      OpenKeeps(w, e);
    }
  }

  lemma {:induction false} RunKeeps(w: World, events: seq<Event>)
    requires Inv(w)
    ensures Inv(Run(w, events))
    decreases |events|
  {
    if events != [] {
      NextKeeps(w, events[0]);
      RunKeeps(Next(w, events[0]), events[1..]);
    }
  }

  /**
   * At every point of every run, whatever crashed and whichever saves lied about failing: a file that can be restored
   * accounts for every backend effect ever begun, terminal commands included, with no client write in flight or of
   * unknown outcome and no command that anybody still waits for; any other file ends in an intent and is refused.
   */
  lemma CrashConsistency(events: seq<Event>)
    ensures var w := Run(Start, events);
            && (w.disk.Some? && Complete(w.disk.value) ==>
                  && Version(w.disk.value) == w.effects && w.unsettled == 0 && Get(w.disk) == Success(w.disk)
                  && Attended(w) == 0)
            && (w.disk.Some? && !Complete(w.disk.value) ==>
                  w.disk.value != [] && w.disk.value[|w.disk.value| - 1].Intent?
                  && Get(w.disk) == Failure(IncompleteMutation))
  {
    RunKeeps(Start, events);
  }

  // ---- Terminal commands ----

  /** Commands that the session open at the moment waits for or will clean up. */
  function Attended(w: World): nat {
    if w.lease.Some? && w.lease.value in w.handles then w.handles[w.lease.value].commands else 0
  }

  /** Commands this event gives up on: an abandonment, or a crash of the opener that attended to them. */
  function GivenUpBy(w: World, e: Event): nat {
    match e
    case AbandonCommand(id) =>
      if id in w.handles && !w.handles[id].phase.Closed? && w.handles[id].commands > 0 then 1 else 0
    case Crash(id) => if w.lease == Some(id) then Attended(w) else 0
    case _ => 0
  }

  /** Whether this event is the late end of a command given up on. */
  function RecoveredBy(w: World, e: Event): nat {
    match e
    case StrayEnds(id) =>
      if id in w.handles && !w.handles[id].phase.Closed? && w.handles[id].strays > 0 && w.running > 0 then 1 else 0
    case _ => 0
  }

  function GivenUp(w: World, events: seq<Event>): nat
    decreases |events|
  {
    if events == [] then 0 else GivenUpBy(w, events[0]) + GivenUp(Next(w, events[0]), events[1..])
  }

  function Recovered(w: World, events: seq<Event>): nat
    decreases |events|
  {
    if events == [] then 0 else RecoveredBy(w, events[0]) + Recovered(Next(w, events[0]), events[1..])
  }

  lemma CommandTally(w: World, id: Id, e: Event)
    requires id in w.handles && CommandEvent(e) && e.id == id && w.lease == Some(id) && !w.handles[id].phase.Closed?
    ensures var t := CommandStep(w, id, e);
            t.running + RecoveredBy(w, e) + Attended(w) == w.running + GivenUpBy(w, e) + Attended(t)
  {
  }

  /** Steps that are not about commands leave them alone. */
  lemma StepTally(w: World, id: Id, e: Event)
    requires Inv(w) && w.lease == Some(id) && OwnStep(e) && !CommandEvent(e)
    ensures var t := Step(w, id, e);
            t.running == w.running && Attended(t) == Attended(w)
  {
    if SetupEvent(e) {
      SetupTally(w, id, e);
    } else if e.Commit? || e.CommitFails? || e.Rename? || e.SaveReturns? || e.SaveFails? {
      SaveTally(w, id, e);
    }
  }

  lemma SetupTally(w: World, id: Id, e: Event)
    requires w.lease == Some(id) && id in w.handles && SetupEvent(e)
    ensures var t := SetupStep(w, id, e);
            t.running == w.running && Attended(t) == Attended(w)
  {
  }

  lemma SaveTally(w: World, id: Id, e: Event)
    requires w.lease == Some(id) && id in w.handles
    requires e.Commit? || e.CommitFails? || e.Rename? || e.SaveReturns? || e.SaveFails?
    ensures var t := Step(w, id, e);
            t.running == w.running && Attended(t) == Attended(w)
  {
  }

  lemma OpenTally(w: World, e: Event)
    requires Inv(w) && !OwnStep(e)
    ensures Next(w, e).running == w.running && Attended(w) == GivenUpBy(w, e) + Attended(Next(w, e))
  {
  }

  lemma NextTally(w: World, e: Event)
    requires Inv(w)
    ensures var t := Next(w, e);
            t.running + RecoveredBy(w, e) + Attended(w) == w.running + GivenUpBy(w, e) + Attended(t)
  {
    if !OwnStep(e) {
      OpenTally(w, e);
    } else {
      HolderSteps(w, e);
      if e.id in w.handles && !w.handles[e.id].phase.Closed? {
        if CommandEvent(e) {
          CommandTally(w, e.id, e);
        } else {
          StepTally(w, e.id, e);
        }
      }
    }
  }

  lemma {:induction false} RunTally(w: World, events: seq<Event>)
    requires Inv(w)
    ensures var t := Run(w, events);
            t.running + Recovered(w, events) + Attended(w) == w.running + GivenUp(w, events) + Attended(t)
    decreases |events|
  {
    if events != [] {
      NextTally(w, events[0]);
      NextKeeps(w, events[0]);
      RunTally(Next(w, events[0]), events[1..]);
    }
  }

  /**
   * Behind a file that can be restored, the commands that may still run are exactly those that were given up on and
   * have not been cleaned up since; so nothing at all is in flight if and only if there is no such command.
   */
  lemma NothingInFlight(events: seq<Event>)
    requires var w := Run(Start, events); w.disk.Some? && Complete(w.disk.value)
    ensures var w := Run(Start, events);
            && w.running == GivenUp(Start, events) - Recovered(Start, events)
            && (w.unsettled == 0 && w.running == 0 <==> GivenUp(Start, events) == Recovered(Start, events))
  {
    RunKeeps(Start, events);
    RunTally(Start, events);
    CrashConsistency(events);
  }

  const SetUp: seq<Event> := [OpenNew(0), CreateRuntime(0)] + [Commit(0)] + [Rename(0), SaveReturns(0)]
  const TurnBegins: seq<Event> := [Reserve(0, Prompt), WriteIntent(0)] + [Rename(0), SaveReturns(0)]
  const CreateCancelled: seq<Event> := [IssueCommand(0), AbandonCommand(0)]
  const TurnEnds: seq<Event> := [Settle(0), Commit(0)] + [Rename(0), SaveReturns(0)]

  /** One opener alone in the world. */
  function Solo(disk: Option<Records>, phase: Phase, records: Records, n: nat, commands: nat, strays: nat): World {
    World(disk, true, n, 0, n, Some(0), map[0 := Handle(phase, records, n, 0, false, false, false, commands, strays)])
  }

  lemma SetUpRuns()
    ensures Run(Start, SetUp) == Solo(Some([Checkpoint(0)]), Ready, [Checkpoint(0)], 0, 0, 0)
  {
    var a := Solo(None, Activating, [], 0, 0, 0);
    var b := Solo(None, Saving(ForSetup, [Checkpoint(0)], false), [], 0, 0, 0);
    Two(Start, OpenNew(0), CreateRuntime(0));
    assert Next(Start, OpenNew(0)) == Solo(None, Creating(None), [], 0, 0, 0);
    assert Next(Next(Start, OpenNew(0)), CreateRuntime(0)) == a;
    One(a, Commit(0));
    assert [] + [Checkpoint(0)] == [Checkpoint(0)];
    assert Next(a, Commit(0)) == b;
    SaveRuns(None, ForSetup, [Checkpoint(0)], [], 0, 0);
    RunJoins(Start, [OpenNew(0), CreateRuntime(0)], [Commit(0)]);
    RunJoins(Start, [OpenNew(0), CreateRuntime(0)] + [Commit(0)], [Rename(0), SaveReturns(0)]);
  }

  lemma SaveRuns(disk: Option<Records>, purpose: Purpose, content: Records, records: Records, n: nat, strays: nat)
    requires Storable(content) && (purpose.ForSetup? || purpose.ForOperation? || purpose.ForTurn?)
    ensures Run(Solo(disk, Saving(purpose, content, false), records, n, 0, strays), [Rename(0), SaveReturns(0)])
         == Solo(Some(content), if purpose.ForOperation? then Running(purpose.operation) else Ready, content,
                 n, 0, strays)
  {
    var w := Solo(disk, Saving(purpose, content, false), records, n, 0, strays);
    Two(w, Rename(0), SaveReturns(0));
    assert Next(w, Rename(0)) == Solo(Some(content), Saving(purpose, content, true), records, n, 0, strays);
  }

  lemma TurnBeginsRuns(records: Records)
    requires Complete(records)
    ensures Run(Solo(Some(records), Ready, records, 0, 0, 0), TurnBegins)
         == Solo(Some(records + [Intent(Prompt)]), Running(Prompt), records + [Intent(Prompt)], 0, 0, 0)
  {
    var w := Solo(Some(records), Ready, records, 0, 0, 0);
    var content := records + [Intent(Prompt)];
    Two(w, Reserve(0, Prompt), WriteIntent(0));
    assert Next(w, Reserve(0, Prompt)) == Solo(Some(records), Reserved(Prompt), records, 0, 0, 0);
    assert Next(Next(w, Reserve(0, Prompt)), WriteIntent(0))
        == Solo(Some(records), Saving(ForOperation(Prompt), content, false), records, 0, 0, 0);
    SaveRuns(Some(records), ForOperation(Prompt), content, records, 0, 0);
    RunJoins(w, [Reserve(0, Prompt), WriteIntent(0)], [Rename(0), SaveReturns(0)]);
  }

  lemma CreateCancelledRuns(records: Records)
    ensures Run(Solo(Some(records), Running(Prompt), records, 0, 0, 0), CreateCancelled)
         == Solo(Some(records), Running(Prompt), records, 1, 0, 1)
  {
    var w := Solo(Some(records), Running(Prompt), records, 0, 0, 0);
    Two(w, IssueCommand(0), AbandonCommand(0));
    assert Next(w, IssueCommand(0)) == Solo(Some(records), Running(Prompt), records, 1, 1, 0);
  }

  lemma SettleIs(records: Records)
    ensures Next(Solo(Some(records), Running(Prompt), records, 1, 0, 1), Settle(0))
         == Solo(Some(records), Finishing, records, 1, 0, 1)
  {
  }

  lemma CommitIs(records: Records)
    ensures Next(Solo(Some(records), Finishing, records, 1, 0, 1), Commit(0))
         == Solo(Some(records), Saving(ForTurn, records + [Checkpoint(1)], false), records, 1, 0, 1)
  {
  }

  lemma TurnEndsRuns(records: Records)
    ensures Run(Solo(Some(records), Running(Prompt), records, 1, 0, 1), TurnEnds)
         == Solo(Some(records + [Checkpoint(1)]), Ready, records + [Checkpoint(1)], 1, 0, 1)
  {
    var w := Solo(Some(records), Running(Prompt), records, 1, 0, 1);
    var content := records + [Checkpoint(1)];
    Two(w, Settle(0), Commit(0));
    SettleIs(records);
    CommitIs(records);
    SaveRuns(Some(records), ForTurn, content, records, 1, 1);
    RunJoins(w, [Settle(0), Commit(0)], [Rename(0), SaveReturns(0)]);
  }

  /**
   * The case is real: a turn cancelled while the creation of a terminal is unanswered leaves a file that can be
   * restored and counts the command, which may still run.
   */
  lemma CancelledCreate()
    ensures var w := Run(Start, SetUp + TurnBegins + CreateCancelled + TurnEnds);
            && w.disk.Some? && Complete(w.disk.value) && Get(w.disk) == Success(w.disk)
            && Version(w.disk.value) == w.effects == 1 && w.running == 1
  {
    var records := [Checkpoint(0)];
    SetUpRuns();
    TurnBeginsRuns(records);
    CreateCancelledRuns(records + [Intent(Prompt)]);
    TurnEndsRuns(records + [Intent(Prompt)]);
    RunJoins(Start, SetUp, TurnBegins);
    RunJoins(Start, SetUp + TurnBegins, CreateCancelled);
    RunJoins(Start, SetUp + TurnBegins + CreateCancelled, TurnEnds);
  }

  // ---- Single steps ----

  /** What one step of an opener may touch besides its own handle. */
  predicate Bounds(w: World, t: World, id: Id, e: Event)
    requires id in w.handles
  {
    var h := w.handles[id];
    && id in t.handles && (h.failed ==> t.handles[id].failed)
    && (w.effects < t.effects ==> (Effective(h.phase) || h.phase.Restoring?) && t.disk == w.disk && t.lease == w.lease)
    && (t.disk != w.disk ==> e.Rename? && h.phase.Saving?)
    && (t.lease != w.lease ==>
          e.Release? && (h.phase.RollingBack? || (h.phase.Ready? && h.closing)) && t.handles[id].phase.Closed?)
  }

  lemma SetupBounds(w: World, id: Id, e: Event)
    requires id in w.handles && SetupEvent(e)
    ensures Bounds(w, SetupStep(w, id, e), id, e)
  {
  }

  lemma CommitBounds(w: World, id: Id, e: Event)
    requires id in w.handles && (e.Commit? || e.CommitFails? || e.Rename? || e.SaveReturns? || e.SaveFails?)
    ensures Bounds(w, Step(w, id, e), id, e)
  {
  }

  lemma StepBounds(w: World, id: Id, e: Event)
    requires id in w.handles
    ensures Bounds(w, Step(w, id, e), id, e)
  {
    if SetupEvent(e) {
      SetupBounds(w, id, e);
    } else if e.Commit? || e.CommitFails? || e.Rename? || e.SaveReturns? || e.SaveFails? {
      CommitBounds(w, id, e);
    }
  }

  lemma EffectStep(w: World, e: Event)
    requires Inv(w) && w.effects < Next(w, e).effects
    ensures Marked(w) && Next(w, e).disk == w.disk && OwnStep(e) && w.lease == Some(e.id) && Next(w, e).lease == w.lease
  {
    if OwnStep(e) {
      HolderSteps(w, e);
      StepBounds(w, e.id, e);
    }
  }

  lemma DiskStep(w: World, e: Event)
    requires Inv(w) && Next(w, e).disk != w.disk
    ensures if e.Delete? then w.lease.None? else e.Rename? && w.lease == Some(e.id)
  {
    if OwnStep(e) {
      HolderSteps(w, e);
      StepBounds(w, e.id, e);
    }
  }

  lemma ReleaseStep(w: World, e: Event, id: Id)
    requires Inv(w) && w.lease == Some(id) && Next(w, e).lease != Some(id) && e != Crash(id)
    ensures e == Release(id) && w.handles[id].writes == 0 && w.handles[id].commands == 0
    ensures w.handles[id].phase.RollingBack? || (w.handles[id].phase.Ready? && w.handles[id].closing)
    ensures id in Next(w, e).handles && Next(w, e).handles[id].phase.Closed?
    ensures w.handles[id].phase.Ready? && !w.handles[id].failed ==>
              w.disk.Some? && Complete(w.disk.value) && Version(w.disk.value) == w.effects && w.unsettled == 0
  {
    if OwnStep(e) {
      HolderSteps(w, e);
      StepBounds(w, id, e);
    }
  }

  lemma ClosedStays(w: World, e: Event, id: Id)
    requires id in w.handles && w.handles[id].phase.Closed?
    ensures id in Next(w, e).handles && Next(w, e).handles[id] == w.handles[id]
  {
    if OwnStep(e) && e.id in w.handles && e.id != id {
      OthersStay(w, e.id, e, id);
    }
  }

  lemma OthersStay(w: World, id: Id, e: Event, other: Id)
    requires id in w.handles && other in w.handles && other != id
    ensures other in Step(w, id, e).handles && Step(w, id, e).handles[other] == w.handles[other]
  {
  }

  lemma FailedStep(w: World, e: Event, id: Id)
    requires Inv(w) && w.lease == Some(id) && w.handles[id].failed && e != Crash(id)
    ensures Next(w, e).disk == w.disk && Next(w, e).effects == w.effects
    ensures id in Next(w, e).handles && Next(w, e).handles[id].failed
  {
    if OwnStep(e) {
      HolderSteps(w, e);
      StepBounds(w, id, e);
      EffectsGrow(w, id, e);
    }
  }

  lemma EffectsGrow(w: World, id: Id, e: Event)
    requires id in w.handles
    ensures w.effects <= Step(w, id, e).effects
  {
  }

  // ---- Guarantees over whole runs ----

  /** Effects begin only behind a durable intent, and only by the hand of the lease holder. */
  lemma IntentBeforeEffect(events: seq<Event>, e: Event)
    requires var w := Run(Start, events); w.effects < Next(w, e).effects
    ensures var w := Run(Start, events);
            && Marked(w) && Next(w, e).disk == w.disk
            && OwnStep(e) && w.lease == Some(e.id) && Next(w, e).lease == w.lease
  {
    RunKeeps(Start, events);
    EffectStep(Run(Start, events), e);
  }

  /** Only the lease holder writes the file; deletion needs the lease to be free. */
  lemma OneWriter(events: seq<Event>, e: Event)
    requires var w := Run(Start, events); Next(w, e).disk != w.disk
    ensures var w := Run(Start, events);
            if e.Delete? then w.lease.None? else e.Rename? && w.lease == Some(e.id)
  {
    RunKeeps(Start, events);
    DiskStep(Run(Start, events), e);
  }

  lemma {:induction false} ClosedForever(w: World, id: Id, more: seq<Event>)
    requires id in w.handles && w.handles[id].phase.Closed?
    ensures var v := Run(w, more);
            id in v.handles && v.handles[id] == w.handles[id]
    decreases |more|
  {
    if more != [] {
      ClosedStays(w, more[0], id);
      ClosedForever(Next(w, more[0]), id, more[1..]);
    }
  }

  lemma ClosedIdle(w: World, id: Id, f: Event)
    requires Inv(w) && id in w.handles && w.handles[id].phase.Closed?
    ensures w.lease != Some(id)
    ensures OwnStep(f) && f.id == id ==> Next(w, f) == w
  {
  }

  /**
   * Unless its holder crashes, a lease is given up only after the active operation and its checkpoint attempt have
   * settled, with no client write in flight, and an unfailed session leaves behind a file that accounts for every
   * effect. From then on, however the run continues, that opener holds no lease and none of its steps does anything.
   */
  lemma ReleasedWhenSettled(events: seq<Event>, e: Event, id: Id, more: seq<Event>, f: Event)
    requires var w := Run(Start, events);
             w.lease == Some(id) && Next(w, e).lease != Some(id) && e != Crash(id)
    ensures var w := Run(Start, events);
            && e == Release(id) && id in w.handles && w.handles[id].writes == 0 && w.handles[id].commands == 0
            && (w.handles[id].phase.RollingBack? || (w.handles[id].phase.Ready? && w.handles[id].closing))
            && (w.handles[id].phase.Ready? && !w.handles[id].failed ==>
                  w.disk.Some? && Complete(w.disk.value) && Version(w.disk.value) == w.effects && w.unsettled == 0)
    ensures var v := Run(Next(Run(Start, events), e), more);
            && id in v.handles && v.handles[id] == Next(Run(Start, events), e).handles[id] && v.lease != Some(id)
            && (OwnStep(f) && f.id == id ==> Next(v, f) == v)
  {
    var w := Run(Start, events);
    RunKeeps(Start, events);
    ReleaseStep(w, e, id);
    NextKeeps(w, e);
    RunKeeps(Next(w, e), more);
    ClosedForever(Next(w, e), id, more);
    ClosedIdle(Run(Next(w, e), more), id, f);
  }

  /** A failed session never mutates or saves again: its operations are refused until it is closed. */
  lemma FailedStops(events: seq<Event>, e: Event, id: Id)
    requires var w := Run(Start, events);
             w.lease == Some(id) && id in w.handles && w.handles[id].failed && e != Crash(id)
    ensures var w := Run(Start, events);
            && Next(w, e).disk == w.disk && Next(w, e).effects == w.effects
            && id in Next(w, e).handles && Next(w, e).handles[id].failed
  {
    RunKeeps(Start, events);
    FailedStep(Run(Start, events), e, id);
  }

  /** A session that was closed without a failure can be opened again, exactly as it was left. */
  lemma CleanCloseIsRestorable(events: seq<Event>, id: Id)
    requires var w := Run(Start, events);
             w.lease == Some(id) && id in w.handles && w.handles[id].phase.Ready? && !w.handles[id].failed
    ensures var w := Run(Start, events);
            && w.disk.Some? && Get(w.disk) == Success(w.disk) && Complete(w.disk.value)
            && Version(w.disk.value) == w.effects == w.handles[id].version
  {
    RunKeeps(Start, events);
  }
}
