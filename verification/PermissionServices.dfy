/** The client services object behind permission requests; `PermissionMonitor` is the specification. */
module PermissionServices {
  import opened Wrappers
  import opened PermissionMonitor

  class ClientServices {
    var rememberedScopes: seq<Scope>
    var scopeRequests: map<Scope, CallId>
    var calls: map<CallId, Call>
    var disposed: bool
    ghost var log: seq<Scope>

    ghost function View(): Monitor
      reads this
    {
      Monitor(disposed, rememberedScopes, scopeRequests, calls, log)
    }

    constructor ()
      ensures View() == PermissionMonitor.Start
    {
      rememberedScopes, scopeRequests, calls, disposed, log := [], map[], map[], false, [];
    }

    method RememberScope(scope: Scope)
      modifies this`rememberedScopes, this`log
      ensures View() == Grant(old(View()), scope)
    {
      if scope !in rememberedScopes {
        rememberedScopes := rememberedScopes + [scope];
        log := log + [scope];
        if |rememberedScopes| > MAX_GRANTS {
          rememberedScopes := rememberedScopes[1..];
        }
      }
    }

    /** One turn of the waiting loop. */
    method Contend(id: CallId, call: Call, scope: Scope)
      modifies this`calls, this`scopeRequests
      ensures View() == Enter(old(View()), id, call, scope)
    {
      if scope in scopeRequests {
        calls := calls[id := call.(phase := Waiting(scopeRequests[scope]))];
      } else if scope in rememberedScopes {
        calls := calls[id := call.(phase := Done(Remembered))];
      } else {
        scopeRequests := scopeRequests[scope := id];
        calls := calls[id := call.(phase := Asking)];
      }
    }

    method RequestPermission(id: CallId, scope: Option<Scope>, aborted: bool)
      requires id !in calls
      modifies this
      ensures View() == Next(old(View()), Event.Request(id, scope, aborted))
    {
      var call := Call(scope, Done(Refused), aborted || disposed);
      if call.aborted || scope.None? {
        calls := calls[id := call];
      } else {
        Contend(id, call, scope.value);
      }
    }

    /** The decision waited for was made. */
    method Resume(id: CallId)
      requires Enabled(View(), Wake(id))
      modifies this
      ensures View() == Next(old(View()), Wake(id))
    {
      var call := calls[id];
      if call.aborted || call.scope.None? {
        calls := calls[id := call.(phase := Done(Refused))];
      } else {
        Contend(id, call, call.scope.value);
      }
    }

    /** The dialog was answered, and the scope is given up whatever the answer. */
    method Decide(id: CallId, choice: Choice) returns (allowed: bool)
      requires Enabled(View(), Event.Reply(id, choice)) && calls[id].scope.Some?
      modifies this
      ensures View() == Next(old(View()), Event.Reply(id, choice))
      ensures allowed == (!old(calls)[id].aborted && (choice.Allow? || choice.AllowScope?))
    {
      var call := calls[id];
      var scope := call.scope.value;
      var verdict := Refused;
      if !call.aborted {
        if choice == AllowScope {
          RememberScope(scope);
          verdict := GrantedScope;
        } else if choice == Allow {
          verdict := AllowedOnce;
        }
      }
      scopeRequests := scopeRequests - {scope};
      calls := calls[id := call.(phase := Done(verdict))];
      return verdict != Refused;
    }

    method DisposeServices()
      modifies this
      ensures View() == Next(old(View()), Event.Dispose)
    {
      disposed := true;
      calls := map id | id in calls :: calls[id].(aborted := true);
      rememberedScopes := [];
      scopeRequests := map[];
    }
  }
}
