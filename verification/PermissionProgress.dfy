/** Every permission request gets somewhere: what happens when it is made, and that nobody waits for nothing. */
module PermissionProgress {
  import opened Wrappers
  import opened PermissionMonitor

  // ---- What a request leads to ----

  /** Another call's dialog for this scope is up. */
  predicate Asked(m: Monitor, h: CallId, scope: Scope) {
    h in m.calls && m.calls[h].phase.Asking? && m.calls[h].scope == Some(scope)
  }

  predicate Refusal(m: Monitor, id: CallId) {
    Ended(m, id, Refused)
  }

  /** From here a call waits for the dialog of its scope, is answered from memory, or gets its own dialog. */
  ghost predicate Enters(m: Monitor, t: Monitor, id: CallId, scope: Scope) {
    && id in t.calls && t.calls[id].scope == Some(scope)
    && (t.calls[id].phase.Waiting? <==> exists h :: Asked(m, h, scope))
    && (t.calls[id].phase.Waiting? ==> Asked(m, t.calls[id].phase.holder, scope))
    && (!t.calls[id].phase.Waiting? ==>
          if scope in m.remembered then Ended(t, id, Remembered) else OpenDialog(t, id))
  }

  lemma LockedExactly(m: Monitor, scope: Scope)
    requires Inv(m) && !m.disposed
    ensures scope in m.locks <==> exists h :: Asked(m, h, scope)
    ensures scope in m.locks ==> Asked(m, m.locks[scope], scope)
  {
    assert LockOk(m, scope);
    assert scope in m.locks ==> Asked(m, m.locks[scope], scope);
    if h :| Asked(m, h, scope) {
      assert CallOk(m, h);
    }
  }

  lemma EnterExact(m: Monitor, id: CallId, call: Call, scope: Scope)
    requires Inv(m) && !m.disposed && call.scope == Some(scope) && !call.aborted
    requires id in m.calls ==> !m.calls[id].phase.Asking?
    ensures Enters(m, Enter(m, id, call, scope), id, scope)
  {
    LockedExactly(m, scope);
  }

  /**
   * A new request is refused exactly if it has no scope, is aborted or comes after disposal. Otherwise it waits exactly
   * if a dialog for its scope is up, is told yes at once exactly if its scope is remembered, and else has its dialog.
   */
  lemma RequestExact(events: seq<Event>, id: CallId, scope: Option<Scope>, aborted: bool)
    requires id !in Run(Start, events).calls
    ensures var m := Run(Start, events);
            var t := Next(m, Request(id, scope, aborted));
            && (Refusal(t, id) <==> scope.None? || aborted || m.disposed)
            && (!Refusal(t, id) ==> Enters(m, t, id, scope.value))
  {
    RunKeeps(events);
    var m := Run(Start, events);
    if scope.Some? && !aborted && !m.disposed {
      EnterExact(m, id, Call(scope, Done(Refused), false), scope.value);
    }
  }

  /** A call whose wait is over competes again, unless it was aborted. */
  lemma WakeExact(events: seq<Event>, id: CallId)
    requires Enabled(Run(Start, events), Wake(id))
    ensures var m := Run(Start, events);
            var t := Next(m, Wake(id));
            && (Refusal(t, id) <==> m.calls[id].aborted)
            && (!Refusal(t, id) ==> m.calls[id].scope.Some? && Enters(m, t, id, m.calls[id].scope.value))
  {
    RunKeeps(events);
    var m := Run(Start, events);
    assert CallOk(m, id);
    if !m.calls[id].aborted {
      EnterExact(m, id, m.calls[id], m.calls[id].scope.value);
    }
  }

  /** An aborted call that gives up is refused, and if its dialog was up, another call may have one for its scope. */
  lemma GiveUpExact(events: seq<Event>, id: CallId)
    requires Enabled(Run(Start, events), GiveUp(id))
    ensures var m := Run(Start, events);
            var t := Next(m, GiveUp(id));
            && Refusal(t, id) && t.remembered == m.remembered
            && (m.calls[id].phase.Asking? ==>
                  m.calls[id].scope.Some? && m.calls[id].scope.value !in t.locks
                  && forall h :: !Asked(t, h, m.calls[id].scope.value) || m.disposed)
            && (forall other :: other in m.calls && other != id ==>
                  other in t.calls && t.calls[other] == m.calls[other])
  {
    RunKeeps(events);
    var m := Run(Start, events);
    assert CallOk(m, id);
    if m.calls[id].phase.Asking? && !m.disposed {
      var scope := m.calls[id].scope.value;
      forall h ensures !Asked(Next(m, GiveUp(id)), h, scope) {
        assert CallOk(m, h);
      }
    }
  }

  // ---- Nobody waits for nothing ----

  /** Whom a call waits for has its dialog up, or is done. */
  predicate WaitOk(m: Monitor, id: CallId) {
    id in m.calls && m.calls[id].phase.Waiting? ==>
      m.calls[id].phase.holder in m.calls && !m.calls[m.calls[id].phase.holder].phase.Waiting?
  }

  ghost predicate WaitsOk(m: Monitor) {
    forall id :: WaitOk(m, id)
  }

  /** No call that is not waiting ever starts to wait, and calls do not disappear. */
  predicate NoNewWaits(m: Monitor, t: Monitor) {
    forall id :: id in m.calls && !m.calls[id].phase.Waiting? ==> id in t.calls && !t.calls[id].phase.Waiting?
  }

  lemma NextWaits(m: Monitor, e: Event)
    requires Inv(m) && WaitsOk(m)
    ensures WaitsOk(Next(m, e)) && NoNewWaits(m, Next(m, e))
  {
    var t := Next(m, e);
    StaysAwake(m, e);
    forall id ensures WaitOk(t, id) {
      WaitStays(m, e, id);
    }
  }

  lemma StaysAwake(m: Monitor, e: Event)
    ensures NoNewWaits(m, Next(m, e))
  {
  }

  lemma WaitStays(m: Monitor, e: Event, id: CallId)
    requires Inv(m) && WaitOk(m, id) && NoNewWaits(m, Next(m, e))
    ensures WaitOk(Next(m, e), id)
  {
    if Enabled(m, e) && e == Wake(id) {
      WakeWaits(m, id);
    } else if Enabled(m, e) && e.Request? && e.id == id {
      RequestWaits(m, id, e.scope, e.aborted);
    } else {
      StillWaits(m, e, id);
    }
  }

  /** Only a request and a wake make a call wait. */
  lemma StillWaits(m: Monitor, e: Event, id: CallId)
    requires Enabled(m, e) ==> e != Wake(id) && !(e.Request? && e.id == id)
    ensures id in Next(m, e).calls && Next(m, e).calls[id].phase.Waiting? ==>
              id in m.calls && m.calls[id].phase == Next(m, e).calls[id].phase
  {
  }

  lemma WakeWaits(m: Monitor, id: CallId)
    requires Inv(m) && Enabled(m, Wake(id)) && NoNewWaits(m, Next(m, Wake(id)))
    ensures WaitOk(Next(m, Wake(id)), id)
  {
    var call := m.calls[id];
    if !call.aborted && call.scope.Some? && Next(m, Wake(id)).calls[id].phase.Waiting? {
      EnterWaits(m, id, call, call.scope.value);
    }
  }

  lemma RequestWaits(m: Monitor, id: CallId, scope: Option<Scope>, aborted: bool)
    requires Inv(m) && id !in m.calls && NoNewWaits(m, Next(m, Request(id, scope, aborted)))
    ensures WaitOk(Next(m, Request(id, scope, aborted)), id)
  {
    var call := Call(scope, Done(Refused), aborted || m.disposed);
    if !call.aborted && scope.Some? && Next(m, Request(id, scope, aborted)).calls[id].phase.Waiting? {
      EnterWaits(m, id, call, scope.value);
    }
  }

  lemma EnterWaits(m: Monitor, id: CallId, call: Call, scope: Scope)
    requires Inv(m) && Enter(m, id, call, scope).calls[id].phase.Waiting?
    requires call.phase.Waiting? ==> id in m.calls && !m.calls[id].phase.Asking?
    requires id in m.calls ==> !m.calls[id].phase.Asking?
    ensures var h := Enter(m, id, call, scope).calls[id].phase.holder;
            h in m.calls && m.calls[h].phase.Asking? && Enter(m, id, call, scope).calls[h] == m.calls[h]
  {
    assert LockOk(m, scope);
  }

  lemma {:induction false} RunWaits(events: seq<Event>)
    ensures WaitsOk(Run(Start, events))
    decreases |events|
  {
    if events != [] {
      var front := events[..|events| - 1];
      RunWaits(front);
      RunKeeps(front);
      NextWaits(Run(Start, front), events[|events| - 1]);
    }
  }

  /**
   * At every point of every run, a waiting call can go on now, or as soon as the dialog it waits for is answered,
   * whatever the answer.
   */
  lemma NobodyStuck(events: seq<Event>, id: CallId, choice: Choice)
    requires var m := Run(Start, events); id in m.calls && m.calls[id].phase.Waiting?
    ensures var m := Run(Start, events);
            var h := m.calls[id].phase.holder;
            || Enabled(m, Wake(id))
            || (Enabled(m, Reply(h, choice)) && Enabled(Next(m, Reply(h, choice)), Wake(id)))
  {
    RunWaits(events);
    RunKeeps(events);
    var m := Run(Start, events);
    assert WaitOk(m, id);
    var h := m.calls[id].phase.holder;
    if m.calls[h].phase.Asking? {
      assert CallOk(m, h);
      ReplyIs(m, h, choice);
    }
  }

  // ---- Aborted calls ----

  predicate Hopeless(m: Monitor, id: CallId) {
    id in m.calls && m.calls[id].aborted && !Accepted(m, id)
  }

  lemma StaysHopeless(m: Monitor, e: Event, id: CallId)
    requires Inv(m) && Hopeless(m, id)
    ensures Hopeless(Next(m, e), id)
  {
    assert CallOk(m, id);
  }

  lemma RunLast(events: seq<Event>, e: Event)
    ensures Run(Start, events + [e]) == Next(Run(Start, events), e)
  {
    assert (events + [e])[..|events|] == events;
  }

  lemma {:induction false} HopelessForever(events: seq<Event>, more: seq<Event>, id: CallId)
    requires Hopeless(Run(Start, events), id)
    ensures Hopeless(Run(Start, events + more), id)
    decreases |more|
  {
    if more == [] {
      assert events + more == events;
    } else {
      var n := |more| - 1;
      HopelessForever(events, more[..n], id);
      RunKeeps(events + more[..n]);
      StaysHopeless(Run(Start, events + more[..n]), more[n], id);
      RunLast(events + more[..n], more[n]);
      assert events + more == events + more[..n] + [more[n]];
    }
  }

  /** A call that is aborted before it was told yes never is, whatever anybody answers afterwards. */
  lemma AbortedNeverAllowed(events: seq<Event>, id: CallId, more: seq<Event>)
    requires id in Run(Start, events).calls && !Accepted(Run(Start, events), id)
    ensures !Accepted(Run(Start, events + [Abort(id)] + more), id)
  {
    RunLast(events, Abort(id));
    HopelessForever(events + [Abort(id)], more, id);
  }
}
