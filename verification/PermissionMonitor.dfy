/** Concurrent permission requests: one dialog per scope, remembered grants, and disposal. */
module PermissionMonitor {
  import opened CodeUnits
  import opened Wrappers

  type CallId = nat

  type Scope = Text

  datatype Choice = Allow | AllowScope | Reject | Unselected | Failed

  datatype Verdict = Refused | AllowedOnce | GrantedScope | Remembered

  datatype Phase =
    | Waiting(holder: CallId) // for the decision of the call holding the scope
    | Asking                  // dialog shown
    | Done(verdict: Verdict)

  /** A call without a scope is not reviewable. `aborted` is its combined signal. */
  datatype Call = Call(scope: Option<Scope>, phase: Phase, aborted: bool)

  /** `remembered` in order of insertion; `locks` names the call that holds each scope. */
  datatype Monitor = Monitor(
    disposed: bool, remembered: seq<Scope>, locks: map<Scope, CallId>, calls: map<CallId, Call>,
    ghost log: seq<Scope>)

  datatype Event =
    | Request(id: CallId, scope: Option<Scope>, aborted: bool)
    | Wake(id: CallId)
    | Abort(id: CallId)
    | GiveUp(id: CallId)
    | Reply(id: CallId, choice: Choice)
    | Dispose

  const MAX_GRANTS := 1024

  /** A set in insertion order, trimmed from its oldest end. */
  function Remember(grants: seq<Scope>, scope: Scope): seq<Scope> {
    if scope in grants then grants
    else if |grants| + 1 > MAX_GRANTS then (grants + [scope])[1..]
    else grants + [scope]
  }

  function Put(m: Monitor, id: CallId, call: Call): Monitor {
    m.(calls := m.calls[id := call])
  }

  function Finish(m: Monitor, id: CallId, verdict: Verdict): Monitor
    requires id in m.calls
  {
    Put(m, id, m.calls[id].(phase := Done(verdict)))
  }

  /** From the top of the waiting loop to the next await. */
  function Enter(m: Monitor, id: CallId, call: Call, scope: Scope): Monitor {
    if scope in m.locks then Put(m, id, call.(phase := Waiting(m.locks[scope])))
    else if scope in m.remembered then Put(m, id, call.(phase := Done(Remembered)))
    else Put(m.(locks := m.locks[scope := id]), id, call.(phase := Asking))
  }

  function Grant(m: Monitor, scope: Scope): Monitor {
    m.(remembered := Remember(m.remembered, scope), log := if scope in m.remembered then m.log else m.log + [scope])
  }

  /** The `finally` block of a call that took the scope. */
  function Unlock(m: Monitor, scope: Scope): Monitor {
    m.(locks := m.locks - {scope})
  }

  predicate Enabled(m: Monitor, e: Event) {
    match e
    case Request(id, _, _) => id !in m.calls
    case Wake(id) =>
      && id in m.calls && m.calls[id].phase.Waiting?
      && m.calls[id].phase.holder in m.calls && m.calls[m.calls[id].phase.holder].phase.Done?
    case Abort(id) => id in m.calls
    case GiveUp(id) => id in m.calls && !m.calls[id].phase.Done? && m.calls[id].aborted
    case Reply(id, _) => id in m.calls && m.calls[id].phase.Asking?
    case Dispose => true
  }

  function Next(m: Monitor, e: Event): Monitor {
    if !Enabled(m, e) then m
    else
      match e
      case Request(id, scope, aborted) =>
        var call := Call(scope, Done(Refused), aborted || m.disposed);
        if call.aborted || scope.None? then Put(m, id, call) else Enter(m, id, call, scope.value)
      case Wake(id) =>
        var call := m.calls[id];
        if call.aborted || call.scope.None? then Finish(m, id, Refused) else Enter(m, id, call, call.scope.value)
      case Abort(id) => Put(m, id, m.calls[id].(aborted := true))
      case GiveUp(id) =>
        var call := m.calls[id];
        if call.phase.Asking? && call.scope.Some? then Finish(Unlock(m, call.scope.value), id, Refused)
        else Finish(m, id, Refused)
      case Reply(id, choice) =>
        var call := m.calls[id];
        if call.scope.None? then m
        else
          var freed := Unlock(m, call.scope.value);
          if call.aborted then Finish(freed, id, Refused)
          else
            (match choice
             case AllowScope => Finish(Grant(freed, call.scope.value), id, GrantedScope)
             case Allow => Finish(freed, id, AllowedOnce)
             case _ => Finish(freed, id, Refused))
      case Dispose =>
        m.(disposed := true, remembered := [], locks := map[],
           calls := map id | id in m.calls :: m.calls[id].(aborted := true))
  }

  function Run(m: Monitor, events: seq<Event>): Monitor
    decreases |events|
  {
    if events == [] then m else Next(Run(m, events[..|events| - 1]), events[|events| - 1])
  }

  const Start := Monitor(false, [], map[], map[], [])

  // ---- Invariants ----

  /** The scope of an open dialog is held by the call that shows it, until disposal aborts everything. */
  predicate CallOk(m: Monitor, id: CallId) {
    id in m.calls ==>
      var call := m.calls[id];
      && (call.scope.None? ==> call.phase.Done?)
      && (call.phase.Asking? ==> m.disposed || (call.scope.value in m.locks && m.locks[call.scope.value] == id))
      && (m.disposed && !call.phase.Done? ==> call.aborted)
  }

  predicate LockOk(m: Monitor, scope: Scope) {
    scope in m.locks ==>
      var id := m.locks[scope];
      !m.disposed && id in m.calls && m.calls[id].scope == Some(scope) && m.calls[id].phase.Asking?
  }

  /** The newest grants are remembered, each once, and none after disposal. */
  predicate GrantsOk(disposed: bool, remembered: seq<Scope>, log: seq<Scope>) {
    && (disposed ==> remembered == [])
    && (!disposed ==> |remembered| == if |log| < MAX_GRANTS then |log| else MAX_GRANTS)
    && (|remembered| <= |log| && remembered == log[|log| - |remembered|..])
    && Once(remembered)
  }

  ghost predicate Inv(m: Monitor) {
    && GrantsOk(m.disposed, m.remembered, m.log)
    && (forall id :: CallOk(m, id)) && (forall scope :: LockOk(m, scope))
  }

  lemma RememberKeeps(m: Monitor, scope: Scope)
    requires GrantsOk(m.disposed, m.remembered, m.log) && !m.disposed
    ensures var t := Grant(m, scope); GrantsOk(t.disposed, t.remembered, t.log)
  {
    if scope !in m.remembered {
      if |m.remembered| + 1 > MAX_GRANTS {
        GrantEvicts(m.log, m.remembered, scope);
      } else {
        GrantAppends(m.log, m.remembered, scope);
      }
    }
  }

  predicate Once(grants: seq<Scope>) {
    forall i, j :: 0 <= i < j < |grants| ==> grants[i] != grants[j]
  }

  lemma GrantAppends(log: seq<Scope>, grants: seq<Scope>, scope: Scope)
    requires GrantsOk(false, grants, log) && |grants| < MAX_GRANTS && scope !in grants
    ensures GrantsOk(false, grants + [scope], log + [scope])
  {
    Appended(log, grants, scope);
  }

  lemma GrantEvicts(log: seq<Scope>, grants: seq<Scope>, scope: Scope)
    requires GrantsOk(false, grants, log) && |grants| == MAX_GRANTS && scope !in grants
    ensures GrantsOk(false, (grants + [scope])[1..], log + [scope])
  {
    Appended(log, grants, scope);
    Evicted(log + [scope], grants + [scope]);
    assert Once(grants + [scope]);
  }

  lemma Evicted(log: seq<Scope>, tail: seq<Scope>)
    requires 0 < |tail| <= |log| && tail == log[|log| - |tail|..]
    ensures tail[1..] == log[|log| - |tail| + 1..]
  {
  }

  lemma Appended(log: seq<Scope>, tail: seq<Scope>, scope: Scope)
    requires |tail| <= |log| && tail == log[|log| - |tail|..]
    ensures tail + [scope] == (log + [scope])[|log| - |tail|..]
  {
  }

  /** Ending a call that holds its scope, with no change to the grants. */
  lemma SettleKeeps(m: Monitor, id: CallId, scope: Scope, verdict: Verdict)
    requires Inv(m) && id in m.calls && m.calls[id].phase.Asking? && m.calls[id].scope == Some(scope)
    ensures Inv(Finish(Unlock(m, scope), id, verdict))
  {
    var t := Finish(Unlock(m, scope), id, verdict);
    assert CallOk(m, id);
    forall other ensures CallOk(t, other) {
      assert CallOk(m, other);
    }
    forall s ensures LockOk(t, s) {
      assert LockOk(m, s);
    }
  }

  /** A call that neither holds nor takes a scope. */
  lemma QuietKeeps(m: Monitor, id: CallId, call: Call)
    requires Inv(m)
    requires id in m.calls ==> !m.calls[id].phase.Asking?
    requires call.phase.Done? || (call.phase.Waiting? && call.scope.Some? && !m.disposed)
    ensures Inv(Put(m, id, call))
  {
    var t := Put(m, id, call);
    forall other ensures CallOk(t, other) {
      assert CallOk(m, other);
    }
    forall s ensures LockOk(t, s) {
      assert LockOk(m, s);
    }
  }

  lemma TakeKeeps(m: Monitor, id: CallId, call: Call, scope: Scope)
    requires Inv(m) && !m.disposed && call.scope == Some(scope) && call.phase.Asking? && scope !in m.locks
    requires id in m.calls ==> !m.calls[id].phase.Asking?
    ensures Inv(Put(m.(locks := m.locks[scope := id]), id, call))
  {
    var t := Put(m.(locks := m.locks[scope := id]), id, call);
    forall other ensures CallOk(t, other) {
      assert CallOk(m, other);
    }
    forall s ensures LockOk(t, s) {
      assert LockOk(m, s);
    }
  }

  lemma EnterKeeps(m: Monitor, id: CallId, call: Call, scope: Scope)
    requires Inv(m) && !m.disposed && call.scope == Some(scope)
    requires id in m.calls ==> !m.calls[id].phase.Asking?
    ensures Inv(Enter(m, id, call, scope))
  {
    if scope in m.locks {
      QuietKeeps(m, id, call.(phase := Waiting(m.locks[scope])));
    } else if scope in m.remembered {
      QuietKeeps(m, id, call.(phase := Done(Remembered)));
    } else {
      TakeKeeps(m, id, call.(phase := Asking), scope);
    }
  }

  lemma AbortKeeps(m: Monitor, id: CallId)
    requires Inv(m) && id in m.calls
    ensures Inv(Put(m, id, m.calls[id].(aborted := true)))
  {
    var t := Put(m, id, m.calls[id].(aborted := true));
    forall other ensures CallOk(t, other) {
      assert CallOk(m, other);
    }
    forall s ensures LockOk(t, s) {
      assert LockOk(m, s);
    }
  }

  lemma DisposeKeeps(m: Monitor)
    requires Inv(m)
    ensures Inv(Next(m, Dispose))
  {
    var t := Next(m, Dispose);
    forall other ensures CallOk(t, other) {
      assert CallOk(m, other);
    }
    assert m.remembered == m.log[|m.log| - |m.remembered|..];
    assert t.remembered == t.log[|t.log|..];
  }

  lemma GrantKeeps(m: Monitor, scope: Scope)
    requires Inv(m) && !m.disposed
    ensures Inv(Grant(m, scope))
  {
    RememberKeeps(m, scope);
    var t := Grant(m, scope);
    forall other ensures CallOk(t, other) {
      assert CallOk(m, other);
    }
    forall k ensures LockOk(t, k) {
      assert LockOk(m, k);
    }
  }

  lemma ReplyIs(m: Monitor, id: CallId, choice: Choice)
    requires id in m.calls && m.calls[id].phase.Asking? && m.calls[id].scope.Some?
    ensures var call := m.calls[id];
            var scope := call.scope.value;
            Next(m, Reply(id, choice))
            == if !call.aborted && choice.AllowScope?
               then Grant(Finish(Unlock(m, scope), id, GrantedScope), scope)
               else Finish(Unlock(m, scope), id, if !call.aborted && choice.Allow? then AllowedOnce else Refused)
  {
  }

  lemma ReplyKeeps(m: Monitor, id: CallId, choice: Choice)
    requires Inv(m) && id in m.calls && m.calls[id].phase.Asking?
    ensures Inv(Next(m, Reply(id, choice)))
  {
    assert CallOk(m, id);
    var call := m.calls[id];
    var scope := call.scope.value;
    ReplyIs(m, id, choice);
    if !call.aborted && choice.AllowScope? {
      SettleKeeps(m, id, scope, GrantedScope);
      GrantKeeps(Finish(Unlock(m, scope), id, GrantedScope), scope);
    } else {
      SettleKeeps(m, id, scope, if !call.aborted && choice.Allow? then AllowedOnce else Refused);
    }
  }

  lemma NextKeeps(m: Monitor, e: Event)
    requires Inv(m)
    ensures Inv(Next(m, e))
  {
    if Enabled(m, e) {
      match e
      case Request(id, scope, aborted) =>
        var call := Call(scope, Done(Refused), aborted || m.disposed);
        if call.aborted || scope.None? {
          QuietKeeps(m, id, call);
        } else {
          EnterKeeps(m, id, call, scope.value);
        }
      case Wake(id) =>
        assert CallOk(m, id);
        if m.calls[id].aborted {
          QuietKeeps(m, id, m.calls[id].(phase := Done(Refused)));
        } else {
          EnterKeeps(m, id, m.calls[id], m.calls[id].scope.value);
        }
      case Abort(id) => AbortKeeps(m, id);
      case GiveUp(id) =>
        assert CallOk(m, id);
        if m.calls[id].phase.Asking? {
          SettleKeeps(m, id, m.calls[id].scope.value, Refused);
        } else {
          QuietKeeps(m, id, m.calls[id].(phase := Done(Refused)));
        }
      case Reply(id, choice) => ReplyKeeps(m, id, choice);
      case Dispose => DisposeKeeps(m);
    }
  }

  lemma {:induction false} RunKeeps(events: seq<Event>)
    ensures Inv(Run(Start, events))
    decreases |events|
  {
    if events != [] {
      RunKeeps(events[..|events| - 1]);
      NextKeeps(Run(Start, events[..|events| - 1]), events[|events| - 1]);
    }
  }

  // ---- Guarantees ----

  predicate OpenDialog(m: Monitor, id: CallId) {
    id in m.calls && m.calls[id].phase.Asking? && !m.calls[id].aborted
  }

  /** Whatever the interleaving, one scope never has two uncancelled dialogs. */
  lemma OneDialog(events: seq<Event>, a: CallId, b: CallId)
    requires var m := Run(Start, events);
             OpenDialog(m, a) && OpenDialog(m, b) && m.calls[a].scope == m.calls[b].scope
    ensures a == b
  {
    RunKeeps(events);
    var m := Run(Start, events);
    assert CallOk(m, a) && CallOk(m, b);
  }

  /** Grants are bounded, the newest ones are kept, and none survives or follows disposal. */
  lemma GrantsBounded(events: seq<Event>)
    ensures var m := Run(Start, events);
            && |m.remembered| <= MAX_GRANTS
            && (m.disposed ==> m.remembered == [])
            && (!m.disposed ==> m.remembered == m.log[if |m.log| < MAX_GRANTS then 0 else |m.log| - MAX_GRANTS..])
  {
    RunKeeps(events);
  }

  // ---- Who may be told yes ----

  /** The monitor before event `k`. */
  function Before(events: seq<Event>, k: nat): Monitor
    requires k <= |events|
  {
    Run(Start, events[..k])
  }

  /** At position `k` an unaborted call whose dialog is open gets this answer. */
  predicate EffectiveReply(events: seq<Event>, k: nat, id: CallId, choice: Choice) {
    && k < |events| && events[k] == Reply(id, choice)
    && Enabled(Before(events, k), events[k]) && !Before(events, k).calls[id].aborted
  }

  /** At position `k` a thread grant for `scope` was selected in call `g`. */
  predicate GrantedAt(events: seq<Event>, k: nat, g: CallId, scope: Scope) {
    EffectiveReply(events, k, g, AllowScope) && Before(events, k).calls[g].scope == Some(scope)
  }

  predicate Ended(m: Monitor, id: CallId, verdict: Verdict) {
    id in m.calls && m.calls[id].phase == Done(verdict)
  }

  /** At position `k` the call was answered from memory: its scope was among the grants then. */
  predicate RememberedAt(events: seq<Event>, k: nat, id: CallId, scope: Scope) {
    && k < |events| && !Ended(Before(events, k), id, Remembered) && Ended(Before(events, k + 1), id, Remembered)
    && scope in Before(events, k).remembered && Before(events, k + 1).calls[id].scope == Some(scope)
  }

  /** A decision is final, and a call keeps its scope. */
  lemma DoneStays(m: Monitor, e: Event, id: CallId)
    requires id in m.calls
    ensures id in Next(m, e).calls && Next(m, e).calls[id].scope == m.calls[id].scope
    ensures m.calls[id].phase.Done? ==> Next(m, e).calls[id].phase == m.calls[id].phase
  {
  }

  lemma {:induction false} DoneStaysAll(events: seq<Event>, k: nat, id: CallId)
    requires k <= |events| && id in Before(events, k).calls
    ensures var t := Run(Start, events);
            && id in t.calls && t.calls[id].scope == Before(events, k).calls[id].scope
            && (Before(events, k).calls[id].phase.Done? ==> t.calls[id].phase == Before(events, k).calls[id].phase)
    decreases |events|
  {
    if k == |events| {
      assert events[..k] == events;
    } else {
      var front := events[..|events| - 1];
      assert front[..k] == events[..k];
      DoneStaysAll(front, k, id);
      DoneStays(Run(Start, front), events[|events| - 1], id);
    }
  }

  /** What an answer does to its own call. */
  lemma ReplyEnds(m: Monitor, id: CallId, choice: Choice)
    requires Inv(m) && id in m.calls && m.calls[id].phase.Asking? && !m.calls[id].aborted
    ensures choice == Allow ==> Ended(Next(m, Reply(id, choice)), id, AllowedOnce)
    ensures choice == AllowScope ==> Ended(Next(m, Reply(id, choice)), id, GrantedScope)
  {
    assert CallOk(m, id);
    ReplyIs(m, id, choice);
  }

  lemma StepTo(events: seq<Event>, k: nat)
    requires k < |events|
    ensures Before(events, k + 1) == Next(Before(events, k), events[k])
  {
    assert events[..k + 1][..k] == events[..k];
  }

  /** An effective answer decides its call for good. */
  lemma ReplyDecides(events: seq<Event>, k: nat, id: CallId, choice: Choice)
    requires EffectiveReply(events, k, id, choice)
    ensures choice == Allow ==> Ended(Run(Start, events), id, AllowedOnce)
    ensures choice == AllowScope ==> Ended(Run(Start, events), id, GrantedScope)
  {
    RunKeeps(events[..k]);
    StepTo(events, k);
    ReplyEnds(Before(events, k), id, choice);
    if choice == Allow || choice == AllowScope {
      DoneStaysAll(events, k + 1, id);
    }
  }

  // What a single step can make newly true.

  lemma AllowedOnceStep(m: Monitor, e: Event, id: CallId)
    requires Inv(m) && Ended(Next(m, e), id, AllowedOnce) && !Ended(m, id, AllowedOnce)
    ensures e == Reply(id, Allow) && Enabled(m, e) && !m.calls[id].aborted
  {
  }

  lemma GrantedScopeStep(m: Monitor, e: Event, id: CallId)
    requires Inv(m) && Ended(Next(m, e), id, GrantedScope) && !Ended(m, id, GrantedScope)
    ensures e == Reply(id, AllowScope) && Enabled(m, e) && !m.calls[id].aborted
  {
  }

  lemma RememberedStep(m: Monitor, e: Event, id: CallId)
    requires Inv(m) && Ended(Next(m, e), id, Remembered) && !Ended(m, id, Remembered)
    ensures Next(m, e).calls[id].scope.Some? && Next(m, e).calls[id].scope.value in m.remembered
  {
    match e
    case Request(other, _, _) => assert other == id;
    case Wake(other) => assert other == id;
    case _ =>
  }

  lemma GrantStep(m: Monitor, e: Event, scope: Scope)
    requires Inv(m) && scope in Next(m, e).remembered && scope !in m.remembered
    ensures e.Reply? && e == Reply(e.id, AllowScope) && Enabled(m, e) && !m.calls[e.id].aborted
    ensures m.calls[e.id].scope == Some(scope)
  {
  }

  // Positions found in a run are positions of every longer run.

  lemma SamePrefix(front: seq<Event>, events: seq<Event>, k: nat)
    requires front <= events && k <= |front|
    ensures Before(front, k) == Before(events, k)
  {
    assert front[..k] == events[..k];
  }

  lemma ReplyExtends(front: seq<Event>, events: seq<Event>, k: nat, id: CallId, choice: Choice)
    requires front <= events && EffectiveReply(front, k, id, choice)
    ensures EffectiveReply(events, k, id, choice)
  {
    SamePrefix(front, events, k);
  }

  ghost predicate AnsweredBy(events: seq<Event>, id: CallId, choice: Choice) {
    exists k: nat :: EffectiveReply(events, k, id, choice)
  }

  lemma {:induction false} OwnAnswer(events: seq<Event>, id: CallId)
    ensures Ended(Run(Start, events), id, AllowedOnce) ==> AnsweredBy(events, id, Allow)
    ensures Ended(Run(Start, events), id, GrantedScope) ==> AnsweredBy(events, id, AllowScope)
    decreases |events|
  {
    if events != [] {
      var n := |events| - 1;
      var front := events[..n];
      var m := Run(Start, front);
      RunKeeps(front);
      OwnAnswer(front, id);
      OwnAnswerStep(events, front, m, id, AllowedOnce, Allow);
      OwnAnswerStep(events, front, m, id, GrantedScope, AllowScope);
    }
  }

  lemma OwnAnswerStep(
    events: seq<Event>, front: seq<Event>, m: Monitor, id: CallId, verdict: Verdict, choice: Choice)
    requires events != [] && front == events[..|events| - 1] && m == Run(Start, front) && Inv(m)
    requires (verdict == AllowedOnce && choice == Allow) || (verdict == GrantedScope && choice == AllowScope)
    requires Ended(m, id, verdict) ==> AnsweredBy(front, id, choice)
    ensures Ended(Run(Start, events), id, verdict) ==> AnsweredBy(events, id, choice)
  {
    var n := |events| - 1;
    if Ended(Run(Start, events), id, verdict) {
      if Ended(m, id, verdict) {
        var k: nat :| EffectiveReply(front, k, id, choice);
        ReplyExtends(front, events, k, id, choice);
      } else {
        if verdict == AllowedOnce {
          AllowedOnceStep(m, events[n], id);
        } else {
          GrantedScopeStep(m, events[n], id);
        }
        assert EffectiveReply(events, n, id, choice);
      }
    }
  }

  ghost predicate Backed(events: seq<Event>, scope: Scope) {
    exists k: nat, g :: GrantedAt(events, k, g, scope)
  }

  /** Every remembered grant was selected in an unaborted call of that scope. */
  lemma {:induction false} GrantsBacked(events: seq<Event>, scope: Scope)
    requires scope in Run(Start, events).remembered
    ensures Backed(events, scope)
    decreases |events|
  {
    var n := |events| - 1;
    var front := events[..n];
    var m := Run(Start, front);
    RunKeeps(front);
    if scope in m.remembered {
      GrantsBacked(front, scope);
      var k: nat, g :| GrantedAt(front, k, g, scope);
      ReplyExtends(front, events, k, g, AllowScope);
      SamePrefix(front, events, k);
      assert GrantedAt(events, k, g, scope);
    } else {
      GrantStep(m, events[n], scope);
      assert GrantedAt(events, n, events[n].id, scope);
    }
  }

  ghost predicate FromMemory(events: seq<Event>, id: CallId) {
    exists j: nat, scope :: RememberedAt(events, j, id, scope)
  }

  lemma {:induction false} MemoryAnswer(events: seq<Event>, id: CallId)
    requires Ended(Run(Start, events), id, Remembered)
    ensures FromMemory(events, id)
    decreases |events|
  {
    var n := |events| - 1;
    var front := events[..n];
    var m := Run(Start, front);
    RunKeeps(front);
    if Ended(m, id, Remembered) {
      MemoryAnswer(front, id);
      var j: nat, scope :| RememberedAt(front, j, id, scope);
      SamePrefix(front, events, j);
      SamePrefix(front, events, j + 1);
      assert RememberedAt(events, j, id, scope);
    } else {
      RememberedStep(m, events[n], id);
      assert events[..n + 1] == events;
      assert RememberedAt(events, n, id, Run(Start, events).calls[id].scope.value);
    }
  }

  /** Call `id` was told yes on the strength of an earlier grant, made in call `g` and still remembered. */
  ghost predicate Inherited(events: seq<Event>, id: CallId) {
    exists k: nat, j: nat, g, scope ::
      && k < j && GrantedAt(events, k, g, scope) && RememberedAt(events, j, id, scope)
      && Ended(Run(Start, events), g, GrantedScope)
  }

  lemma RememberedIsInherited(events: seq<Event>, id: CallId)
    requires Ended(Run(Start, events), id, Remembered)
    ensures Inherited(events, id)
  {
    MemoryAnswer(events, id);
    var j: nat, scope :| RememberedAt(events, j, id, scope);
    GrantsBacked(events[..j], scope);
    var k: nat, g :| GrantedAt(events[..j], k, g, scope);
    SamePrefix(events[..j], events, k);
    assert GrantedAt(events, k, g, scope);
    ReplyDecides(events, k, g, AllowScope);
  }

  lemma InheritedEnds(events: seq<Event>, id: CallId)
    requires Inherited(events, id)
    ensures Ended(Run(Start, events), id, Remembered)
  {
    var k: nat, j: nat, g, scope :|
      && k < j && GrantedAt(events, k, g, scope) && RememberedAt(events, j, id, scope)
      && Ended(Run(Start, events), g, GrantedScope);
    DoneStaysAll(events, j + 1, id);
  }

  /** The earlier call behind an answer from memory, which asked under the same scope. */
  lemma InheritedFrom(events: seq<Event>, id: CallId) returns (g: CallId)
    requires Inherited(events, id)
    ensures var t := Run(Start, events);
            && g in t.calls && id in t.calls && t.calls[g].scope == t.calls[id].scope && t.calls[id].scope.Some?
            && AnsweredBy(events, g, AllowScope)
  {
    var k: nat, j: nat, h, scope :|
      && k < j && GrantedAt(events, k, h, scope) && RememberedAt(events, j, id, scope)
      && Ended(Run(Start, events), h, GrantedScope);
    DoneStaysAll(events, k, h);
    DoneStaysAll(events, j + 1, id);
    g := h;
  }

  predicate Accepted(m: Monitor, id: CallId) {
    id in m.calls && m.calls[id].phase.Done? && !m.calls[id].phase.verdict.Refused?
  }

  lemma AcceptedCases(m: Monitor, id: CallId)
    ensures Accepted(m, id) <==> Ended(m, id, AllowedOnce) || Ended(m, id, GrantedScope) || Ended(m, id, Remembered)
  {
  }

  lemma AnswersEnd(events: seq<Event>, id: CallId, verdict: Verdict, choice: Choice)
    requires (verdict == AllowedOnce && choice == Allow) || (verdict == GrantedScope && choice == AllowScope)
    ensures Ended(Run(Start, events), id, verdict) <==> AnsweredBy(events, id, choice)
  {
    OwnAnswer(events, id);
    if AnsweredBy(events, id, choice) {
      var k: nat :| EffectiveReply(events, k, id, choice);
      ReplyDecides(events, k, id, choice);
    }
  }

  lemma MemoryExactly(events: seq<Event>, id: CallId)
    ensures Ended(Run(Start, events), id, Remembered) <==> Inherited(events, id)
  {
    if Ended(Run(Start, events), id, Remembered) {
      RememberedIsInherited(events, id);
    }
    if Inherited(events, id) {
      InheritedEnds(events, id);
    }
  }

  /**
   * A call returns true exactly when its own dialog was answered with an allowing choice while it was unaborted, or
   * when, at the moment it was decided, its scope was remembered from such an answer in an earlier call.
   */
  lemma TrueOnlyWhenAllowed(events: seq<Event>, id: CallId)
    ensures Accepted(Run(Start, events), id)
       <==> AnsweredBy(events, id, Allow) || AnsweredBy(events, id, AllowScope) || Inherited(events, id)
  {
    AcceptedCases(Run(Start, events), id);
    AnswersEnd(events, id, AllowedOnce, Allow);
    AnswersEnd(events, id, GrantedScope, AllowScope);
    MemoryExactly(events, id);
  }
}
