/** What one thread grant covers: the runs of the monitor, each call asking under the scope of its own request. */
module PermissionGrants {
  import opened CodeUnits
  import opened Wrappers
  import opened CanonicalJson
  import opened PermissionIdentities
  import Monitors = PermissionMonitor

  /** Every call of the run asks under the scope that its request's identity gives. */
  predicate Asked(
    events: seq<Monitors.Event>, requests: Monitors.CallId -> Request, digest: Text -> Text, schema: Schema)
  {
    forall k :: 0 <= k < |events| && events[k].Request? ==>
      events[k].scope == ScopeFor(requests(events[k].id), digest, schema)
  }

  lemma {:induction false} CallsAsk(
    events: seq<Monitors.Event>, requests: Monitors.CallId -> Request, digest: Text -> Text, schema: Schema)
    requires Asked(events, requests, digest, schema)
    ensures var m := Monitors.Run(Monitors.Start, events);
            forall id :: id in m.calls ==> m.calls[id].scope == ScopeFor(requests(id), digest, schema)
    decreases |events|
  {
    if events != [] {
      var front, e := events[..|events| - 1], events[|events| - 1];
      CallsAsk(front, requests, digest, schema);
      var m := Monitors.Run(Monitors.Start, front);
      forall id | id in Monitors.Next(m, e).calls
        ensures Monitors.Next(m, e).calls[id].scope == ScopeFor(requests(id), digest, schema)
      {
        if id in m.calls {
          Monitors.DoneStays(m, e, id);
        } else {
          NewCall(m, e, id);
        }
      }
    }
  }

  lemma NewCall(m: Monitors.Monitor, e: Monitors.Event, id: Monitors.CallId)
    requires id !in m.calls && id in Monitors.Next(m, e).calls
    ensures e.Request? && e.id == id && Monitors.Next(m, e).calls[id].scope == e.scope
  {
  }

  /** In call `g` the user selected a thread grant on the same ground as call `id` asks on. */
  ghost predicate CoveredBy(
    events: seq<Monitors.Event>, requests: Monitors.CallId -> Request, schema: Schema,
    id: Monitors.CallId, g: Monitors.CallId)
  {
    && Monitors.AnsweredBy(events, g, Monitors.AllowScope)
    && SameGround(requests(g), requests(id), schema)
  }

  /**
   * A call that is told yes was allowed in its own dialog, or is covered by a thread grant for a request of the same
   * explicit identifier, or of the same title, kind and JSON input. No grant ever answers any other request.
   */
  lemma GrantCovers(
    events: seq<Monitors.Event>, requests: Monitors.CallId -> Request, digest: Text -> Text, schema: Schema,
    id: Monitors.CallId)
    requires forall s, t :: digest(s) == digest(t) ==> s == t
    requires forall k :: WellFormed(requests(k).input)
    requires Asked(events, requests, digest, schema)
    requires Monitors.Accepted(Monitors.Run(Monitors.Start, events), id)
    ensures Monitors.AnsweredBy(events, id, Monitors.Allow) || exists g :: CoveredBy(events, requests, schema, id, g)
  {
    Monitors.TrueOnlyWhenAllowed(events, id);
    CallsAsk(events, requests, digest, schema);
    if Monitors.AnsweredBy(events, id, Monitors.AllowScope) {
      assert CoveredBy(events, requests, schema, id, id);
    } else if Monitors.Inherited(events, id) {
      var g := Monitors.InheritedFrom(events, id);
      SharedScope(requests(g), requests(id), digest, schema);
      assert CoveredBy(events, requests, schema, id, g);
    }
  }
}
