/** What the protocol achieves when nothing fails: a turn is kept, and a session that was closed can be opened again. */
module PersistenceRuns {
  import opened Wrappers
  import opened Persistence
  import opened PersistenceProofs
  import opened PersistenceSession

  ghost predicate Reaches(w: World, t: World) {
    exists events :: Run(w, events) == t
  }

  lemma StepReaches(w: World, e: Event)
    ensures Reaches(w, Next(w, e))
  {
    One(w, e);
  }

  lemma ReachesOn(w: World, t: World, u: World)
    requires Reaches(w, t) && Reaches(t, u)
    ensures Reaches(w, u)
  {
    var a :| Run(w, a) == t;
    var b :| Run(t, b) == u;
    RunJoins(w, a, b);
  }

  lemma ReachesNext(w: World, t: World, e: Event, u: World)
    requires Reaches(w, t) && Next(t, e) == u
    ensures Reaches(w, u)
  {
    StepReaches(t, e);
    ReachesOn(w, t, u);
  }

  // ---- A turn ----

  function Updates(contents: seq<string>): (r: Records)
    ensures |r| == |contents| && forall i :: 0 <= i < |r| ==> r[i] == Update(contents[i])
  {
    seq(|contents|, i requires 0 <= i < |contents| => Update(contents[i]))
  }

  lemma {:induction false} TranscriptRuns(w: World, id: Id, contents: seq<string>)
    requires id in w.handles && w.handles[id].phase.Running?
    ensures Reaches(w, Put(w, id, w.handles[id].(records := w.handles[id].records + Updates(contents))))
    decreases |contents|
  {
    var h := w.handles[id];
    if contents == [] {
      assert h.records + Updates(contents) == h.records && w.handles[id := h] == w.handles;
      assert Run(w, []) == w;
    } else {
      var n := |contents| - 1;
      var front, last := contents[..n], contents[n];
      var a := h.(records := h.records + Updates(front));
      var b := h.(records := h.records + Updates(contents));
      TranscriptRuns(w, id, front);
      assert Updates(contents) == Updates(front) + [Update(last)];
      assert b.records == a.records + [Update(last)];
      AppendIs(Put(w, id, a), id, a, last);
      SamePut(w, id, a, b);
      ReachesNext(w, Put(w, id, a), Transcript(id, |a.records|, last), Put(w, id, b));
    }
  }

  lemma AppendIs(w: World, id: Id, h: Handle, content: string)
    requires id in w.handles && h == w.handles[id] && h.phase.Running?
    ensures Next(w, Transcript(id, |h.records|, content)) == Put(w, id, h.(records := h.records + [Update(content)]))
  {
  }

  lemma ReserveIs(w: World, id: Id, h: Handle, operation: Mutation)
    requires id in w.handles && h == w.handles[id] && h.phase.Ready? && !h.closing && !h.failed && !operation.Restore?
    ensures Next(w, Reserve(id, operation)) == Put(w, id, h.(phase := Reserved(operation)))
  {
  }

  /** The file after a turn: what was there, the intent, everything said in order, and the checkpoint. */
  function AfterTurn(h: Handle, operation: Mutation, contents: seq<string>): Records {
    h.records + [Intent(operation)] + Updates(contents) + [Checkpoint(h.version)]
  }

  /** The intent is written and acknowledged, and the backend may act. */
  lemma TurnOpens(w: World, id: Id, h: Handle, operation: Mutation)
    requires id in w.handles && h == w.handles[id] && h.phase.Ready? && !h.closing && !h.failed && !operation.Restore?
    ensures var content := h.records + [Intent(operation)];
            Reaches(w, Put(w.(disk := Some(content)), id, h.(phase := Running(operation), records := content)))
  {
    var content := h.records + [Intent(operation)];
    var reserved := h.(phase := Reserved(operation));
    var w1 := Put(w, id, reserved);
    var begun := Begun(w1, id, Acknowledged);
    ReserveIs(w, id, h, operation);
    StepReaches(w, Reserve(id, operation));
    BegunIsRun(w1, id, Acknowledged);
    ReachesOn(w, w1, begun);
    SamePut(w.(disk := Some(content)), id, reserved, h.(phase := Running(operation), records := content));
  }

  /** The turn is settled and its checkpoint acknowledged. */
  lemma TurnCloses(w: World, id: Id, h: Handle)
    requires id in w.handles && h == w.handles[id] && h.phase.Running?
    requires h.writes == 0 && h.commands == 0 && !h.unknown && !h.failed
    ensures var content := h.records + [Checkpoint(h.version)];
            Reaches(w, Put(w.(disk := Some(content)), id, h.(phase := Ready, records := content)))
  {
    var content := h.records + [Checkpoint(h.version)];
    var finishing := h.(phase := Finishing);
    var w1 := Put(w, id, finishing);
    PersistenceSession.SettleIs(w, id, h);
    StepReaches(w, Settle(id));
    CommitStarts(w1, id, finishing);
    SavedCommitIsRun(w1, id, Acknowledged);
    ReachesOn(w, w1, Committed(w1, id, true, Acknowledged));
    SamePut(w.(disk := Some(content)), id, finishing, h.(phase := Ready, records := content));
  }

  /**
   * From any point at which a session is idle and has not failed, a turn in which no save fails ends with a file that
   * holds its whole transcript in order, between its intent and a checkpoint of the current version.
   */
  lemma TurnKept(events: seq<Event>, id: Id, operation: Mutation, contents: seq<string>)
    requires var w := Run(Start, events);
             && w.lease == Some(id) && id in w.handles && w.handles[id].phase.Ready? && !operation.Restore?
             && !w.handles[id].closing && !w.handles[id].failed
    ensures var w := Run(Start, events);
            var h := w.handles[id];
            var file := AfterTurn(h, operation, contents);
            Reaches(w, Put(w.(disk := Some(file)), id, h.(records := file)))
  {
    RunKeeps(Start, events);
    var w := Run(Start, events);
    var h := w.handles[id];
    var begun := h.(phase := Running(operation), records := h.records + [Intent(operation)]);
    var said := begun.(records := begun.records + Updates(contents));
    var file := AfterTurn(h, operation, contents);
    var w1 := Put(w.(disk := Some(begun.records)), id, begun);
    TurnOpens(w, id, h, operation);
    TranscriptRuns(w1, id, contents);
    var w2 := Put(w.(disk := Some(begun.records)), id, said);
    SamePut(w.(disk := Some(begun.records)), id, begun, said);
    ReachesOn(w, w1, w2);
    TurnCloses(w2, id, said);
    assert file == said.records + [Checkpoint(said.version)];
    SamePut(w.(disk := Some(file)), id, said, h.(records := file));
    ReachesOn(w, w2, Put(w.(disk := Some(file)), id, h.(records := file)));
  }

  /** An operation that is declined before its intent leaves no trace. */
  lemma DeclineLeavesNoTrace(w: World, id: Id, operation: Mutation)
    requires id in w.handles && w.handles[id].phase.Ready? && !w.handles[id].closing && !w.handles[id].failed
    requires !operation.Restore?
    ensures Run(w, [Reserve(id, operation), Decline(id)]) == w
  {
    var h := w.handles[id];
    var reserved := h.(phase := Reserved(operation));
    Two(w, Reserve(id, operation), Decline(id));
    ReserveIs(w, id, h, operation);
    DeclineIs(Put(w, id, reserved), id, reserved);
    SamePut(w, id, reserved, h);
    assert w.handles[id := h] == w.handles;
  }

  lemma DeclineIs(w: World, id: Id, h: Handle)
    requires id in w.handles && h == w.handles[id] && h.phase.Reserved?
    ensures Next(w, Decline(id)) == Put(w, id, h.(phase := Ready))
  {
  }

  /** Each effect of the backend is counted, for the world and for the session's next checkpoint. */
  lemma {:induction false} EffectsCounted(w: World, id: Id, n: nat)
    requires id in w.handles && w.handles[id].phase.Running?
    ensures Reaches(w, Put(w.(effects := w.effects + n), id, w.handles[id].(version := w.handles[id].version + n)))
    decreases n
  {
    var h := w.handles[id];
    if n == 0 {
      assert w.handles[id := h] == w.handles && Run(w, []) == w;
    } else {
      var more := w.(effects := w.effects + n - 1);
      var a, b := h.(version := h.version + n - 1), h.(version := h.version + n);
      EffectsCounted(w, id, n - 1);
      EffectIs(Put(more, id, a), id, a);
      SamePut(w.(effects := w.effects + n), id, a, b);
      ReachesNext(w, Put(more, id, a), Effect(id), Put(w.(effects := w.effects + n), id, b));
    }
  }

  lemma EffectIs(w: World, id: Id, h: Handle)
    requires id in w.handles && h == w.handles[id] && h.phase.Running?
    ensures Next(w, Effect(id)) == Put(w.(effects := w.effects + 1), id, h.(version := h.version + 1))
  {
  }

  // ---- Client writes ----

  lemma IssueIs(w: World, id: Id, h: Handle)
    requires id in w.handles && h == w.handles[id] && h.phase.Running?
    ensures Next(w, IssueWrite(id)) == Put(w.(effects := w.effects + 1, unsettled := w.unsettled + 1), id,
                                           h.(version := h.version + 1, writes := h.writes + 1))
  {
  }

  /** A turn whose client write is answered ends with a file that counts it. */
  lemma AnsweredWriteKept(w: World, id: Id)
    requires id in w.handles && w.handles[id].phase.Running? && w.handles[id].writes == 0
    requires w.handles[id].commands == 0 && !w.handles[id].unknown && !w.handles[id].failed
    ensures var h := w.handles[id];
            var file := h.records + [Checkpoint(h.version + 1)];
            Reaches(w, Put(w.(disk := Some(file), effects := w.effects + 1), id,
                           h.(phase := Ready, records := file, version := h.version + 1)))
  {
    var h := w.handles[id];
    var file := h.records + [Checkpoint(h.version + 1)];
    var more := w.(effects := w.effects + 1);
    var open := w.(effects := w.effects + 1, unsettled := w.unsettled + 1);
    var a := h.(version := h.version + 1, writes := 1);
    var b := h.(version := h.version + 1);
    var last := h.(phase := Ready, records := file, version := h.version + 1);
    IssueIs(w, id, h);
    StepReaches(w, IssueWrite(id));
    SettleWriteIs(Put(open, id, a), id, a);
    SamePut(more, id, a, b);
    ReachesNext(w, Put(open, id, a), SettleWrite(id), Put(more, id, b));
    TurnCloses(Put(more, id, b), id, b);
    SamePut(more.(disk := Some(file)), id, b, last);
    ReachesOn(w, Put(more, id, b), Put(more.(disk := Some(file)), id, last));
  }

  /** A turn whose client write is lost with the connection leaves the session failed and its file refused. */
  lemma LostWriteFails(events: seq<Event>, id: Id)
    requires var w := Run(Start, events);
             && w.lease == Some(id) && id in w.handles && w.handles[id].phase.Running?
             && w.handles[id].writes == 0 && w.handles[id].commands == 0
    ensures var w := Run(Start, events);
            var t := Run(w, [IssueWrite(id), Disconnect(id), Settle(id), Commit(id)]);
            && id in t.handles && t.handles[id].failed && t.handles[id].phase.Ready?
            && t.disk == w.disk && Get(t.disk) == Failure(IncompleteMutation)
  {
    RunKeeps(Start, events);
    var w := Run(Start, events);
    LostWriteRuns(w, id, w.handles[id]);
    StaysMarked(w, id);
  }

  lemma StaysMarked(w: World, id: Id)
    requires Inv(w) && w.lease == Some(id) && w.handles[id].phase.Running?
    ensures Get(w.disk) == Failure(IncompleteMutation)
  {
  }

  lemma LostWriteRuns(w: World, id: Id, h: Handle)
    requires id in w.handles && h == w.handles[id] && h.phase.Running? && h.writes == 0 && h.commands == 0
    ensures Run(w, [IssueWrite(id), Disconnect(id), Settle(id), Commit(id)])
         == Put(w.(effects := w.effects + 1, unsettled := w.unsettled + 1), id,
                h.(version := h.version + 1, unknown := true, phase := Ready, failed := true))
  {
    var open := w.(effects := w.effects + 1, unsettled := w.unsettled + 1);
    var lost := h.(version := h.version + 1, unknown := true);
    WriteLost(w, id, h);
    LostCommits(Put(open, id, lost), id, lost);
    SamePut(open, id, lost, lost.(phase := Ready, failed := true));
    RunJoins(w, [IssueWrite(id), Disconnect(id)], [Settle(id), Commit(id)]);
    assert [IssueWrite(id), Disconnect(id)] + [Settle(id), Commit(id)]
        == [IssueWrite(id), Disconnect(id), Settle(id), Commit(id)];
  }

  lemma WriteLost(w: World, id: Id, h: Handle)
    requires id in w.handles && h == w.handles[id] && h.phase.Running? && h.writes == 0
    ensures Run(w, [IssueWrite(id), Disconnect(id)])
         == Put(w.(effects := w.effects + 1, unsettled := w.unsettled + 1), id,
                h.(version := h.version + 1, unknown := true))
  {
    var w1 := Next(w, IssueWrite(id));
    IssueIs(w, id, h);
    LoseIs(w1, id, w1.handles[id]);
    WriteLostIs(w, id, h, w1);
    TwoSteps(w, IssueWrite(id), Disconnect(id), w1, Next(w1, Disconnect(id)));
  }

  lemma WriteLostIs(w: World, id: Id, h: Handle, w1: World)
    requires id in w.handles && h == w.handles[id] && h.writes == 0
    requires w1 == Put(w.(effects := w.effects + 1, unsettled := w.unsettled + 1), id,
                       h.(version := h.version + 1, writes := h.writes + 1))
    ensures Put(w1, id, w1.handles[id].(writes := 0, unknown := true))
         == Put(w.(effects := w.effects + 1, unsettled := w.unsettled + 1), id,
                h.(version := h.version + 1, unknown := true))
  {
    assert w1.handles[id].(writes := 0, unknown := true) == h.(version := h.version + 1, unknown := true);
    SamePut(w.(effects := w.effects + 1, unsettled := w.unsettled + 1), id, w1.handles[id],
            h.(version := h.version + 1, unknown := true));
  }

  lemma TwoSteps(w: World, e: Event, f: Event, t: World, u: World)
    requires Next(w, e) == t && Next(t, f) == u
    ensures Run(w, [e, f]) == u
  {
    Two(w, e, f);
  }

  lemma LoseIs(w: World, id: Id, h: Handle)
    requires id in w.handles && h == w.handles[id] && !h.phase.Closed? && h.writes > 0
    ensures Next(w, Disconnect(id)) == Put(w, id, h.(writes := 0, unknown := true))
  {
  }

  lemma LostCommits(w: World, id: Id, h: Handle)
    requires id in w.handles && h == w.handles[id] && h.phase.Running?
    requires h.writes == 0 && h.commands == 0 && h.unknown
    ensures Run(w, [Settle(id), Commit(id)]) == Put(w, id, h.(phase := Ready, failed := true))
  {
    var finishing := h.(phase := Finishing);
    Two(w, Settle(id), Commit(id));
    PersistenceSession.SettleIs(w, id, h);
    UnknownFails(Put(w, id, finishing), id, finishing);
    SamePut(w, id, finishing, h.(phase := Ready, failed := true));
  }

  lemma UnknownFails(w: World, id: Id, h: Handle)
    requires id in w.handles && h == w.handles[id] && h.phase.Finishing?
    requires h.writes == 0 && h.commands == 0 && h.unknown
    ensures Next(w, Commit(id)) == Put(w, id, h.(phase := Ready, failed := true))
  {
  }

  // ---- Closing ----

  /** The holder gives up the lease exactly when its setup was rolled back, or it is idle and closing. */
  lemma ReleaseExact(w: World, id: Id)
    requires w.lease == Some(id) && id in w.handles && !w.handles[id].phase.Closed?
    ensures var h := w.handles[id];
            Next(w, Release(id)).lease.None? <==> h.phase.RollingBack? || (h.phase.Ready? && h.closing)
    ensures var h := w.handles[id];
            var t := Run(w, [Close(id), Release(id)]);
            t.lease.None? <==> h.phase.RollingBack? || h.phase.Ready?
  {
    DisposedIsRun(w, id);
  }

  // ---- Opening again ----

  /** Opening a stored session, up to its runtime standing behind the restore intent. */
  lemma RestoreOpens(w: World, id: Id, stored: Records)
    requires w.lease.None? && id !in w.handles && w.disk == Some(stored) && Complete(stored)
    ensures var content := stored + [Intent(Restore)];
            Reaches(w, Put(w.(disk := Some(content), lease := Some(id), born := true), id,
                           Fresh.(phase := Restoring(stored), records := content)))
  {
    var content := stored + [Intent(Restore)];
    var a, b := Fresh, Fresh.(phase := Creating(Some(stored)));
    var c := Fresh.(phase := Saving(ForRestore(stored), content, false));
    var d := Fresh.(phase := Saving(ForRestore(stored), content, true));
    var e := Fresh.(phase := Restoring(stored), records := content);
    var open := w.(lease := Some(id), born := true);
    var kept := open.(disk := Some(content));
    StepReaches(w, OpenStored(id));
    assert Next(w, OpenStored(id)) == Put(open, id, a);
    SamePut(open, id, a, b);
    ReadIs(Put(open, id, a), id, stored);
    ReachesNext(w, Put(open, id, a), Read(id, true), Put(open, id, b));
    SamePut(open, id, b, c);
    CreateIs(Put(open, id, b), id, stored);
    ReachesNext(w, Put(open, id, b), CreateRuntime(id), Put(open, id, c));
    SamePut(kept, id, c, d);
    IntentRenames(Put(open, id, c), id, c);
    ReachesNext(w, Put(open, id, c), Rename(id), Put(kept, id, d));
    SamePut(kept, id, d, e);
    IntentSaved(Put(kept, id, d), id, d);
    ReachesNext(w, Put(kept, id, d), SaveReturns(id), Put(kept, id, e));
  }

  lemma ReadIs(w: World, id: Id, stored: Records)
    requires id in w.handles && w.handles[id] == Fresh && w.disk == Some(stored) && Complete(stored)
    ensures Next(w, Read(id, true)) == Put(w, id, Fresh.(phase := Creating(Some(stored))))
  {
  }

  lemma CreateIs(w: World, id: Id, stored: Records)
    requires id in w.handles && w.handles[id] == Fresh.(phase := Creating(Some(stored)))
    ensures Next(w, CreateRuntime(id))
         == Put(w, id, Fresh.(phase := Saving(ForRestore(stored), stored + [Intent(Restore)], false)))
  {
  }

  lemma IntentRenames(w: World, id: Id, h: Handle)
    requires id in w.handles && h == w.handles[id] && h.phase.Saving? && Storable(h.phase.content)
    ensures Next(w, Rename(id))
         == Put(w.(disk := Some(h.phase.content)), id, h.(phase := h.phase.(renamed := true)))
  {
  }

  lemma IntentSaved(w: World, id: Id, h: Handle)
    requires id in w.handles && h == w.handles[id] && h.phase.Saving? && h.phase.renamed && h.phase.purpose.ForRestore?
    ensures Next(w, SaveReturns(id))
         == Put(w, id, h.(phase := Restoring(h.phase.purpose.stored), records := h.phase.content))
  {
  }

  lemma RestoreIs(w: World, id: Id, h: Handle)
    requires id in w.handles && h == w.handles[id] && h.phase.Restoring? && Complete(h.phase.stored)
    ensures Next(w, ApplyRestore(id))
         == Put(w.(effects := w.effects + 1), id, h.(phase := Restored, version := Version(h.phase.stored) + 1))
  {
  }

  lemma ActivateIs(w: World, id: Id, h: Handle)
    requires id in w.handles && h == w.handles[id] && h.phase.Restored?
    ensures Next(w, Activate(id)) == Put(w, id, h.(phase := Activating))
  {
  }

  /** Restoring the runtime and committing the set-up. */
  lemma RestoreCommits(w: World, id: Id, h: Handle)
    requires id in w.handles && h == w.handles[id] && h.phase.Restoring? && Complete(h.phase.stored)
    requires h.writes == 0 && h.commands == 0 && !h.unknown && !h.failed
    ensures var version := Version(h.phase.stored) + 1;
            var file := h.records + [Checkpoint(version)];
            Reaches(w, Put(w.(effects := w.effects + 1, disk := Some(file)), id,
                           h.(phase := Ready, version := version, records := file)))
  {
    var version := Version(h.phase.stored) + 1;
    var file := h.records + [Checkpoint(version)];
    var a := h.(phase := Restored, version := version);
    var b := a.(phase := Activating);
    var more := w.(effects := w.effects + 1);
    RestoreIs(w, id, h);
    StepReaches(w, ApplyRestore(id));
    ActivateIs(Put(more, id, a), id, a);
    SamePut(more, id, a, b);
    ReachesNext(w, Put(more, id, a), Activate(id), Put(more, id, b));
    SavedCommitIsRun(Put(more, id, b), id, Acknowledged);
    ReachesOn(w, Put(more, id, b), Committed(Put(more, id, b), id, true, Acknowledged));
    SamePut(more.(disk := Some(file)), id, b, h.(phase := Ready, version := version, records := file));
  }

  /**
   * Whatever happened before, a session whose file can be restored and whose lease is free can be opened again: the
   * new opener ends up idle, with everything that was in the file, and accounts for every effect ever begun.
   */
  lemma OpensAgain(events: seq<Event>, id: Id)
    requires var w := Run(Start, events);
             w.lease.None? && id !in w.handles && w.disk.Some? && Complete(w.disk.value)
    ensures var w := Run(Start, events);
            var file := w.disk.value + [Intent(Restore), Checkpoint(w.effects + 1)];
            Reaches(w, Put(w.(disk := Some(file), born := true, effects := w.effects + 1, lease := Some(id)), id,
                           Fresh.(phase := Ready, records := file, version := w.effects + 1)))
  {
    RunKeeps(Start, events);
    var w := Run(Start, events);
    var stored := w.disk.value;
    var content := stored + [Intent(Restore)];
    var file := stored + [Intent(Restore), Checkpoint(w.effects + 1)];
    var h := Fresh.(phase := Restoring(stored), records := content);
    var open := w.(disk := Some(content), lease := Some(id), born := true);
    RestoreOpens(w, id, stored);
    RestoreCommits(Put(open, id, h), id, h);
    assert content + [Checkpoint(w.effects + 1)] == file;
    var last := Fresh.(phase := Ready, records := file, version := w.effects + 1);
    SamePut(open.(effects := w.effects + 1, disk := Some(file)), id, h, last);
    ReachesOn(w, Put(open, id, h), Put(open.(effects := w.effects + 1, disk := Some(file)), id, last));
  }

  // ---- Deletion ----

  /** Nothing of the session is left, and nobody can bring it back. */
  predicate Forgotten(w: World) {
    && w.disk.None? && w.born
    && (w.lease.Some? ==>
          w.lease.value in w.handles
          && (w.handles[w.lease.value].phase.Acquired? || w.handles[w.lease.value].phase.RollingBack?))
  }

  lemma StaysForgotten(w: World, e: Event)
    requires Inv(w) && Forgotten(w)
    ensures Forgotten(Next(w, e)) && Next(w, e).effects == w.effects
  {
    if OwnStep(e) {
      HolderSteps(w, e);
      if w.lease == Some(e.id) {
        StepForgotten(w, e.id, e);
      }
    }
  }

  lemma StepForgotten(w: World, id: Id, e: Event)
    requires Inv(w) && Forgotten(w) && w.lease == Some(id)
    ensures Forgotten(Step(w, id, e)) && Step(w, id, e).effects == w.effects
  {
  }

  lemma {:induction false} ForgottenForever(w: World, more: seq<Event>)
    requires Inv(w) && Forgotten(w)
    ensures Forgotten(Run(w, more)) && Run(w, more).effects == w.effects
    decreases |more|
  {
    if more != [] {
      StaysForgotten(w, more[0]);
      NextKeeps(w, more[0]);
      ForgottenForever(Next(w, more[0]), more[1..]);
    }
  }

  /** A session deleted while nobody has it open stays gone: no file is ever written again, and no effect begins. */
  lemma DeletedForGood(events: seq<Event>, more: seq<Event>)
    requires Run(Start, events).lease.None?
    ensures var w := Run(Start, events);
            var t := Run(Next(w, Delete), more);
            t.disk.None? && t.effects == w.effects
  {
    RunKeeps(Start, events);
    var w := Run(Start, events);
    NextKeeps(w, Delete);
    ForgottenForever(Next(w, Delete), more);
  }
}
