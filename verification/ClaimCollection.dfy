/** One attempt's own code: the bounded scan that collects dead claims, and the lease it may end up with. */
module ClaimCollection {
  import opened Wrappers
  import opened LockOwners
  import opened SessionLock

  /**
   * A directory entry as this scan finds it: its claim, unless it has vanished, what is observed of the owner, and how
   * the file operations on it go. A claim that cannot be read or parsed is not `readable`.
   */
  datatype Found = Found(
    name: Name, regular: bool, readable: bool, owner: Option<LockOwner>, observed: Observation,
    sameDirectory: bool, unlinks: bool)

  const MAX_CLAIMS := 128

  predicate Dead(own: Name, e: Found) {
    e.name != own && e.owner.Some? && LockOwnerStatus(e.owner.value, e.observed) == Status.Dead
  }

  /** The scan goes on past the own claim, a vanished claim and a proven-dead one that it manages to remove. */
  predicate Passable(own: Name, e: Found) {
    && e.regular
    && (e.name == own || (e.readable && (e.owner.None? || (Dead(own, e) && e.sameDirectory && e.unlinks))))
  }

  function DeadNames(own: Name, entries: seq<Found>): set<Name> {
    set i | 0 <= i < |entries| && Dead(own, entries[i]) :: entries[i].name
  }

  /** Where the scan stops: at the first entry it cannot pass or that is one too many, and otherwise at the end. */
  function StopsAt(own: Name, entries: seq<Found>, i: nat): (k: nat)
    requires i <= |entries|
    ensures i <= k <= |entries|
    ensures forall j :: i <= j < k ==> j < MAX_CLAIMS && Passable(own, entries[j])
    ensures k < |entries| ==> k >= MAX_CLAIMS || !Passable(own, entries[k])
    decreases |entries| - i
  {
    if i == |entries| || i >= MAX_CLAIMS || !Passable(own, entries[i]) then i else StopsAt(own, entries, i + 1)
  }

  class Registry {
    var claims: map<Name, LockOwner>

    constructor ()
      ensures claims == map[]
    {
      claims := map[];
    }

    method Unlink(name: Name)
      modifies this
      ensures claims == old(claims) - {name}
    {
      claims := claims - {name};
    }
  }

  /**
   * Succeeds exactly on a small directory of passable entries, and removes exactly the proven-dead claims met before
   * it stops.
   */
  method CollectClaims(registry: Registry, own: Name, entries: seq<Found>) returns (ok: bool)
    modifies registry
    ensures ok <==> |entries| <= MAX_CLAIMS && forall e :: e in entries ==> Passable(own, e)
    ensures registry.claims == old(registry.claims) - DeadNames(own, entries[..StopsAt(own, entries, 0)])
    ensures ok <==> StopsAt(own, entries, 0) == |entries|
  {
    var count := 0;
    var i := 0;
    while i < |entries|
      invariant 0 <= i <= |entries| && count == i <= MAX_CLAIMS
      invariant forall j :: 0 <= j < i ==> Passable(own, entries[j])
      invariant StopsAt(own, entries, 0) == StopsAt(own, entries, i)
      invariant registry.claims == old(registry.claims) - DeadNames(own, entries[..i])
    {
      var entry := entries[i];
      assert entry in entries;
      count := count + 1;
      if count > MAX_CLAIMS || !entry.regular {
        return false;
      }
      DeadNext(own, entries, i);
      if entry.name != own {
        if !entry.readable {
          return false;
        }
        if entry.owner.Some? {
          var status := LockOwnerStatus(entry.owner.value, entry.observed);
          if status != Status.Dead || !entry.sameDirectory || !entry.unlinks {
            return false;
          }
          registry.Unlink(entry.name);
        }
      }
      i := i + 1;
    }
    assert entries[..i] == entries;
    return true;
  }

  lemma DeadNext(own: Name, entries: seq<Found>, i: nat)
    requires i < |entries|
    ensures DeadNames(own, entries[..i + 1])
         == DeadNames(own, entries[..i]) + if Dead(own, entries[i]) then {entries[i].name} else {}
  {
    var a, b := entries[..i], entries[..i + 1];
    assert b == a + [entries[i]];
    forall n | n in DeadNames(own, a) ensures n in DeadNames(own, b) {
      var k :| 0 <= k < |a| && Dead(own, a[k]) && a[k].name == n;
      assert b[k] == a[k];
    }
    assert Dead(own, b[i]) ==> b[i].name in DeadNames(own, b);
  }

  /** The closure handed to the winner: a release that fails may be tried again, one that succeeded is final. */
  class Lease {
    const registry: Registry
    const name: Name
    var released: bool

    constructor (registry: Registry, name: Name)
      ensures this.registry == registry && this.name == name && !released
    {
      this.registry, this.name, released := registry, name, false;
    }

    /** The directory may turn out to be another one, and the unlink may fail; both throw. */
    method Release(sameDirectory: bool, unlinks: bool) returns (ok: bool)
      modifies this, registry
      ensures ok == released == (old(released) || (sameDirectory && unlinks))
      ensures registry.claims
           == if !old(released) && released then old(registry.claims) - {name} else old(registry.claims)
    {
      if released {
        return true;
      }
      if !sameDirectory || !unlinks {
        return false;
      }
      registry.Unlink(name);
      released := true;
      return true;
    }
  }

  // ---- The scan is a run of the protocol ----

  lemma OneStep(s: Lock, e: Event)
    ensures Reaches(s, Next(s, e))
  {
    assert [e][1..] == [] && Run(Next(s, e), []) == Next(s, e);
    assert Run(s, [e]) == Next(s, e);
  }

  lemma {:induction false} RunJoins(s: Lock, a: seq<Event>, b: seq<Event>)
    ensures Run(s, a + b) == Run(Run(s, a), b)
    decreases |a|
  {
    if a == [] {
      assert a + b == b;
    } else {
      assert (a + b)[1..] == a[1..] + b;
      RunJoins(Next(s, a[0]), a[1..], b);
    }
  }

  lemma ReachesJoins(s: Lock, t: Lock, u: Lock)
    requires Reaches(s, t) && Reaches(t, u)
    ensures Reaches(s, u)
  {
    var a :| Run(s, a) == t;
    var b :| Run(t, b) == u;
    RunJoins(s, a, b);
    assert Run(s, a + b) == u;
  }

  /** What `p` observes now about a pid in its table. */
  predicate Truthful(o: Observation, p: Process, pid: nat, alive: set<Process>) {
    && (o.probe.Some? ==> TruthfulProbe(o.probe.value, p, pid, alive))
    && (o.stat.Some? ==> TruthfulStat(o.stat.value, p, pid, alive))
    && (o.confirm.Some? ==> TruthfulProbe(o.confirm.value, p, pid, alive))
  }

  /** The observations are of the scanning process and truthful while the world stands still. */
  predicate Honest(s: Lock, own: Name, e: Found)
    requires own in s.attempts
  {
    var p := s.attempts[own].process;
    && (e.observed.current.Some? ==> RecordedBy(e.observed.current.value, p))
    && (e.owner.Some? ==> Truthful(e.observed, p, e.owner.value.pid, s.alive))
  }

  function With(s: Lock, own: Name, o: Observation): Lock
    requires own in s.attempts
  {
    SetAttempt(s, own, s.attempts[own].(observed := o))
  }

  lemma WithTwice(s: Lock, own: Name, a: Observation, b: Observation)
    requires own in s.attempts
    ensures own in With(s, own, a).attempts && With(With(s, own, a), own, b) == With(s, own, b)
  {
    var h := s.attempts[own];
    assert s.attempts[own := h.(observed := a)][own := h.(observed := b)] == s.attempts[own := h.(observed := b)];
  }

  /** One observation, if it is made at all. */
  lemma Gathers(s: Lock, own: Name, before: Observation, after: Observation, e: Event, made: bool)
    requires own in s.attempts && Reaches(s, With(s, own, before))
    requires if made then Next(With(s, own, before), e) == With(With(s, own, before), own, after) else before == after
    ensures Reaches(s, With(s, own, after))
  {
    if made {
      var t := With(s, own, before);
      WithTwice(s, own, before, after);
      OneStep(t, e);
      ReachesJoins(s, t, Next(t, e));
    }
  }

  lemma SelfNext(t: Lock, own: Name, current: Option<LockOwner>)
    requires Running(t, own, Judging) && (current.Some? ==> RecordedBy(current.value, t.attempts[own].process))
    ensures Next(t, ObserveSelf(own, current)) == With(t, own, t.attempts[own].observed.(current := current))
  {
  }

  lemma ProbeNext(t: Lock, own: Name, probe: Probe)
    requires Running(t, own, Judging)
    requires TruthfulProbe(probe, t.attempts[own].process, t.attempts[own].seen.pid, t.alive)
    ensures Next(t, ObserveProbe(own, probe)) == With(t, own, t.attempts[own].observed.(probe := Some(probe)))
    ensures Next(t, ObserveConfirm(own, probe)) == With(t, own, t.attempts[own].observed.(confirm := Some(probe)))
  {
  }

  lemma StatNext(t: Lock, own: Name, stat: LockOwners.Stat)
    requires Running(t, own, Judging) && TruthfulStat(stat, t.attempts[own].process, t.attempts[own].seen.pid, t.alive)
    ensures Next(t, ObserveStat(own, stat)) == With(t, own, t.attempts[own].observed.(stat := Some(stat)))
  {
  }

  /** A judging attempt gathers an honest observation in at most four steps. */
  lemma Observes(s: Lock, own: Name, e: Found)
    requires Running(s, own, Judging) && s.attempts[own].observed == Nothing
    requires e.owner == Some(s.attempts[own].seen) && Honest(s, own, e)
    ensures Reaches(s, With(s, own, e.observed))
  {
    var o := e.observed;
    var a, b := Observation(o.current, None, None, None), Observation(o.current, o.probe, None, None);
    var c := Observation(o.current, o.probe, o.stat, None);
    assert With(s, own, Nothing) == s && Run(s, []) == s;
    SelfNext(s, own, o.current);
    Gathers(s, own, Nothing, a, ObserveSelf(own, o.current), true);
    if o.probe.Some? {
      ProbeNext(With(s, own, a), own, o.probe.value);
    }
    Gathers(s, own, a, b, ObserveProbe(own, o.probe.GetOr(Exists)), o.probe.Some?);
    if o.stat.Some? {
      StatNext(With(s, own, b), own, o.stat.value);
    }
    Gathers(s, own, b, c, ObserveStat(own, o.stat.GetOr(Unusable)), o.stat.Some?);
    if o.confirm.Some? {
      ProbeNext(With(s, own, c), own, o.confirm.value);
    }
    Gathers(s, own, c, o, ObserveConfirm(own, o.confirm.GetOr(Exists)), o.confirm.Some?);
  }

  /** The entry is as the directory has it now. */
  predicate Current(s: Lock, own: Name, e: Found) {
    && PastStaging(s, e.name)
    && (e.name != own ==> e.owner == if e.name in s.registry then Some(s.registry[e.name]) else None)
  }

  /** What the attempt remembers of the last claim it judged. */
  datatype Memory = Memory(target: Name, seen: LockOwner, observed: Observation)

  /** The attempt is scanning, has been given these names, and these claims are gone; all else is as it was. */
  function Scanned(s: Lock, own: Name, names: set<Name>, gone: set<Name>, m: Memory): Lock
    requires own in s.attempts
  {
    var a := s.attempts[own];
    s.(registry := s.registry - gone,
       attempts := s.attempts[own := a.(stage := Scanning, yielded := a.yielded + names,
                                        target := m.target, seen := m.seen, observed := m.observed)])
  }

  ghost predicate ScansTo(s: Lock, own: Name, names: set<Name>, gone: set<Name>)
    requires own in s.attempts
  {
    exists m :: Reaches(s, Scanned(s, own, names, gone, m))
  }

  lemma OwnEntry(s: Lock, own: Name)
    requires Running(s, own, Scanning) && own !in s.attempts[own].yielded
    ensures ScansTo(s, own, {own}, {})
  {
    var a := s.attempts[own];
    var m := Memory(a.target, a.seen, a.observed);
    assert Next(s, YieldEntry(own, own)) == Scanned(s, own, {own}, {}, m);
    OneStep(s, YieldEntry(own, own));
  }

  lemma VanishedEntry(s: Lock, own: Name, name: Name)
    requires Running(s, own, Scanning) && name != own && PastStaging(s, name)
    requires name !in s.attempts[own].yielded && name !in s.registry
    ensures ScansTo(s, own, {name}, {})
  {
    var a := s.attempts[own];
    var m := Memory(name, a.seen, a.observed);
    var t := Next(s, YieldEntry(own, name));
    assert t == SetAttempt(s, own, a.(stage := Reading, yielded := a.yielded + {name}, target := name));
    assert Next(t, ReadEntry(own)) == Scanned(s, own, {name}, {}, m);
    OneStep(s, YieldEntry(own, name));
    OneStep(t, ReadEntry(own));
    ReachesJoins(s, t, Next(t, ReadEntry(own)));
  }

  /** A claim present in the registry is read and comes up for judgement. */
  lemma Judged(s: Lock, own: Name, name: Name) returns (t: Lock)
    requires Running(s, own, Scanning) && name != own && PastStaging(s, name)
    requires name !in s.attempts[own].yielded && name in s.registry
    ensures Reaches(s, t)
    ensures t == SetAttempt(s, own, s.attempts[own].(stage := Judging, yielded := s.attempts[own].yielded + {name},
                                                     target := name, seen := s.registry[name], observed := Nothing))
  {
    var a := s.attempts[own];
    var r := Next(s, YieldEntry(own, name));
    assert r == SetAttempt(s, own, a.(stage := Reading, yielded := a.yielded + {name}, target := name));
    t := Next(r, ReadEntry(own));
    OneStep(s, YieldEntry(own, name));
    OneStep(r, ReadEntry(own));
    ReachesJoins(s, r, t);
  }

  /** A claim proven dead is removed. */
  lemma Collects(s: Lock, own: Name)
    requires Running(s, own, Judging)
    requires LockOwnerStatus(s.attempts[own].seen, s.attempts[own].observed) == Status.Dead
    ensures Reaches(s, MoveTo(Unlink(s, s.attempts[own].target), own, Scanning))
  {
    var r := Next(s, Conclude(own));
    assert r == MoveTo(s, own, Removing);
    var t := Next(r, RemoveEntry(own));
    assert t == MoveTo(Unlink(s, s.attempts[own].target), own, Scanning);
    OneStep(s, Conclude(own));
    OneStep(r, RemoveEntry(own));
    ReachesJoins(s, r, t);
  }

  lemma DeadEntry(s: Lock, own: Name, e: Found)
    requires Running(s, own, Scanning) && e.name !in s.attempts[own].yielded
    requires Current(s, own, e) && Honest(s, own, e) && Dead(own, e)
    ensures ScansTo(s, own, {e.name}, {e.name})
  {
    var t := Judged(s, own, e.name);
    Observes(t, own, e);
    var u := With(t, own, e.observed);
    ReachesJoins(s, t, u);
    Collects(u, own);
    var v := MoveTo(Unlink(u, e.name), own, Scanning);
    ReachesJoins(s, u, v);
    DeadScanned(s, t, u, v, own, e);
  }

  lemma DeadScanned(s: Lock, t: Lock, u: Lock, v: Lock, own: Name, e: Found)
    requires own in s.attempts && e.owner.Some?
    requires t == SetAttempt(s, own, s.attempts[own].(stage := Judging, yielded := s.attempts[own].yielded + {e.name},
                                                      target := e.name, seen := e.owner.value, observed := Nothing))
    requires u == With(t, own, e.observed) && v == MoveTo(Unlink(u, e.name), own, Scanning)
    ensures v == Scanned(s, own, {e.name}, {e.name}, Memory(e.name, e.owner.value, e.observed))
  {
  }

  /** Handling one passable entry is a run of the protocol's steps. */
  lemma EntryIsRun(s: Lock, own: Name, e: Found)
    requires Running(s, own, Scanning) && e.name !in s.attempts[own].yielded
    requires Current(s, own, e) && Honest(s, own, e) && Passable(own, e)
    ensures ScansTo(s, own, {e.name}, if Dead(own, e) then {e.name} else {})
  {
    if e.name == own {
      OwnEntry(s, own);
    } else if e.owner.None? {
      VanishedEntry(s, own, e.name);
    } else {
      DeadEntry(s, own, e);
    }
  }

  function Names(entries: seq<Found>): set<Name> {
    set i | 0 <= i < |entries| :: entries[i].name
  }

  predicate DistinctNames(entries: seq<Found>) {
    forall i, j :: 0 <= i < j < |entries| ==> entries[i].name != entries[j].name
  }

  lemma NamesNext(entries: seq<Found>)
    requires entries != [] && DistinctNames(entries)
    ensures var n := |entries| - 1;
            Names(entries) == Names(entries[..n]) + {entries[n].name} && entries[n].name !in Names(entries[..n])
  {
    var n := |entries| - 1;
    forall i | 0 <= i < n ensures entries[i].name in Names(entries[..n]) {
      assert entries[..n][i] == entries[i];
    }
  }

  lemma DeadAreNamed(own: Name, entries: seq<Found>)
    ensures DeadNames(own, entries) <= Names(entries)
  {
  }

  lemma ScannedTwice(s: Lock, own: Name, a: set<Name>, x: set<Name>, m: Memory, b: set<Name>, y: set<Name>, n: Memory)
    requires own in s.attempts
    ensures own in Scanned(s, own, a, x, m).attempts
    ensures Scanned(Scanned(s, own, a, x, m), own, b, y, n) == Scanned(s, own, a + b, x + y, n)
  {
    var h := s.attempts[own];
    var first := h.(stage := Scanning, yielded := h.yielded + a,
                    target := m.target, seen := m.seen, observed := m.observed);
    var second := first.(yielded := h.yielded + (a + b), target := n.target, seen := n.seen, observed := n.observed);
    assert (h.yielded + a) + b == h.yielded + (a + b);
    assert s.attempts[own := first][own := second] == s.attempts[own := second];
    assert (s.registry - x) - y == s.registry - (x + y);
  }

  lemma ScannedNothing(s: Lock, own: Name)
    requires Running(s, own, Scanning)
    ensures ScansTo(s, own, {}, {})
  {
    var a := s.attempts[own];
    var m := Memory(a.target, a.seen, a.observed);
    var none: set<Name> := {};
    assert a.yielded + none == a.yielded && s.registry - none == s.registry;
    assert a.(stage := Scanning, yielded := a.yielded + none,
              target := m.target, seen := m.seen, observed := m.observed) == a;
    assert s.attempts[own := a] == s.attempts;
    assert Scanned(s, own, none, none, m) == s;
    assert Run(s, []) == s;
  }

  /** An entry not met so far is still as it was found. */
  lemma StillCurrent(s: Lock, own: Name, a: set<Name>, x: set<Name>, m: Memory, e: Found)
    requires Running(s, own, Scanning) && Current(s, own, e) && Honest(s, own, e)
    requires e.name !in s.attempts[own].yielded && e.name !in a && e.name !in x
    ensures var t := Scanned(s, own, a, x, m);
            Running(t, own, Scanning) && Current(t, own, e) && Honest(t, own, e) && e.name !in t.attempts[own].yielded
  {
  }

  /** A scan that succeeds while the world stands still is a run of the protocol, and removes the same claims. */
  lemma {:induction false} ScanIsRun(s: Lock, own: Name, entries: seq<Found>)
    requires Running(s, own, Scanning) && DistinctNames(entries)
    requires forall e :: e in entries ==>
               e.name !in s.attempts[own].yielded && Current(s, own, e) && Honest(s, own, e) && Passable(own, e)
    ensures ScansTo(s, own, Names(entries), DeadNames(own, entries))
    decreases |entries|
  {
    if entries == [] {
      ScannedNothing(s, own);
      assert Names(entries) == {} && DeadNames(own, entries) == {};
    } else {
      var n := |entries| - 1;
      var front, e := entries[..n], entries[n];
      ScanIsRun(s, own, front);
      NamesNext(entries);
      DeadNext(own, entries, n);
      DeadAreNamed(own, front);
      assert entries[..n + 1] == entries && e in entries;
      ScanOneMore(s, own, Names(front), DeadNames(own, front), e);
    }
  }

  lemma ScanOneMore(s: Lock, own: Name, names: set<Name>, gone: set<Name>, e: Found)
    requires Running(s, own, Scanning) && ScansTo(s, own, names, gone) && gone <= names && e.name !in names
    requires e.name !in s.attempts[own].yielded && Current(s, own, e) && Honest(s, own, e) && Passable(own, e)
    ensures ScansTo(s, own, names + {e.name}, gone + if Dead(own, e) then {e.name} else {})
  {
    var m :| Reaches(s, Scanned(s, own, names, gone, m));
    var t := Scanned(s, own, names, gone, m);
    var removed := if Dead(own, e) then {e.name} else {};
    StillCurrent(s, own, names, gone, m, e);
    EntryIsRun(t, own, e);
    var k :| Reaches(t, Scanned(t, own, {e.name}, removed, k));
    ScannedTwice(s, own, names, gone, m, {e.name}, removed, k);
    ReachesJoins(s, t, Scanned(t, own, {e.name}, removed, k));
  }

  // ---- The lease can be had again ----

  /** What `p` can observe now proves the owner of this claim dead. */
  predicate Proves(s: Lock, p: Process, n: Name, o: Observation)
    requires n in s.registry
  {
    && LockOwnerStatus(s.registry[n], o) == Status.Dead
    && (o.current.Some? ==> RecordedBy(o.current.value, p)) && Truthful(o, p, s.registry[n].pid, s.alive)
  }

  ghost predicate Provable(s: Lock, p: Process, n: Name) {
    n in s.registry ==> exists o :: Proves(s, p, n, o)
  }

  /** The entry of a claim that will be collected. */
  predicate Collectable(s: Lock, p: Process, e: Found) {
    && e.regular && e.readable && e.sameDirectory && e.unlinks
    && e.name in s.registry && e.owner == Some(s.registry[e.name]) && Proves(s, p, e.name, e.observed)
  }

  /** A directory listing of claims that can all be collected. */
  lemma {:induction false} Listing(s: Lock, p: Process, names: set<Name>) returns (entries: seq<Found>)
    requires names <= s.registry.Keys && forall n :: Provable(s, p, n)
    ensures DistinctNames(entries) && Names(entries) == names
    ensures forall e :: e in entries ==> Collectable(s, p, e)
    decreases |names|
  {
    if names == {} {
      entries := [];
    } else {
      var n :| n in names;
      var rest := Listing(s, p, names - {n});
      assert Provable(s, p, n);
      var o :| Proves(s, p, n, o);
      entries := rest + [Found(n, true, true, Some(s.registry[n]), o, true, true)];
      ListingNext(rest, entries, names, n);
    }
  }

  lemma ListingNext(rest: seq<Found>, entries: seq<Found>, names: set<Name>, n: Name)
    requires DistinctNames(rest) && Names(rest) == names - {n} && n in names
    requires |entries| == |rest| + 1 && entries[..|rest|] == rest && entries[|rest|].name == n
    ensures DistinctNames(entries) && Names(entries) == names
  {
    assert forall i :: 0 <= i < |rest| ==> entries[i] == rest[i] && rest[i].name in Names(rest);
    NamesNext(entries);
  }

  /** The attempt `name` of process `p` has published its claim and opened its scan. */
  function Scanner(s: Lock, name: Name, p: Process, owner: LockOwner): Lock {
    s.(registry := s.registry[name := owner],
       attempts := s.attempts[name := Attempt(p, owner, Scanning, s.registry.Keys + {name}, {}, name, owner, Nothing)])
  }

  lemma OpensScan(s: Lock, name: Name, p: Process, owner: LockOwner)
    requires p in s.alive && name !in s.attempts && RecordedBy(owner, p)
    ensures Reaches(s, Scanner(s, name, p, owner))
  {
    var staged := Attempt(p, owner, Staged, {}, {}, name, owner, Nothing);
    var s1 := Next(s, Event.Stage(name, p, owner));
    assert s1 == SetAttempt(s, name, staged);
    var published := staged.(stage := Published);
    var s2 := Next(s1, Publish(name));
    assert s1.attempts[name := published] == s.attempts[name := published];
    assert s2 == SetAttempt(s.(registry := s.registry[name := owner]), name, published);
    var s3 := Next(s2, OpenScan(name));
    assert s2.registry.Keys == s.registry.Keys + {name};
    assert s3 == Scanner(s, name, p, owner);
    OneStep(s, Event.Stage(name, p, owner));
    OneStep(s1, Publish(name));
    OneStep(s2, OpenScan(name));
    ReachesJoins(s, s1, s2);
    ReachesJoins(s, s2, s3);
  }

  /** A scan that was given every entry ends with the lease. */
  lemma EndsHolding(s: Lock, name: Name)
    requires Running(s, name, Scanning) && s.attempts[name].initial <= s.attempts[name].yielded && name in s.registry
    ensures exists t :: Reaches(s, t) && Running(t, name, Holding)
  {
    var s1 := Next(s, EndScan(name));
    assert s1 == MoveTo(s, name, Checking);
    var s2 := Next(s1, CheckOwn(name));
    assert s2 == MoveTo(s1, name, Holding);
    OneStep(s, EndScan(name));
    OneStep(s1, CheckOwn(name));
    ReachesJoins(s, s1, s2);
  }

  /** The listing is what the new attempt's scan finds. */
  lemma FoundByScan(s: Lock, name: Name, p: Process, owner: LockOwner, e: Found)
    requires Inv(s) && p in s.alive && name !in s.attempts && Collectable(s, p, e)
    ensures var t := Scanner(s, name, p, owner);
            && e.name != name && Running(t, name, Scanning) && e.name !in t.attempts[name].yielded
            && Current(t, name, e) && Honest(t, name, e) && Passable(name, e) && Dead(name, e)
  {
    assert Own(s, e.name);
  }

  lemma AllDead(own: Name, entries: seq<Found>)
    requires forall e :: e in entries ==> Dead(own, e)
    ensures DeadNames(own, entries) == Names(entries)
  {
    assert forall i :: 0 <= i < |entries| ==> entries[i] in entries;
  }

  /** The claims found are collected, and then the own entry is passed over. */
  lemma ScansAll(t: Lock, own: Name, entries: seq<Found>)
    requires Running(t, own, Scanning) && t.attempts[own].yielded == {} && DistinctNames(entries)
    requires own !in Names(entries)
    requires forall e :: e in entries ==> Current(t, own, e) && Honest(t, own, e) && Passable(own, e) && Dead(own, e)
    ensures ScansTo(t, own, Names(entries) + {own}, Names(entries))
  {
    ScanIsRun(t, own, entries);
    AllDead(own, entries);
    var e := Found(own, true, true, None, Nothing, true, true);
    ScanOneMore(t, own, Names(entries), Names(entries), e);
    assert Names(entries) + {} == Names(entries);
  }

  /**
   * From any lawful state, if every claim in the registry belongs to an owner that `p` can prove dead, then a new
   * attempt of `p` can run to the lease: crashed owners never lock a session for good.
   */
  lemma ObtainableAgain(s: Lock, name: Name, p: Process, owner: LockOwner)
    requires Inv(s) && p in s.alive && RecordedBy(owner, p) && name !in s.attempts
    requires forall n :: Provable(s, p, n)
    ensures exists t :: Reaches(s, t) && Running(t, name, Holding)
  {
    var entries := Listing(s, p, s.registry.Keys);
    OpensScan(s, name, p, owner);
    var scanner := Scanner(s, name, p, owner);
    forall e | e in entries
      ensures Current(scanner, name, e) && Honest(scanner, name, e) && Passable(name, e) && Dead(name, e)
    {
      FoundByScan(s, name, p, owner, e);
    }
    assert Own(s, name);
    ScansAll(scanner, name, entries);
    var m :| Reaches(scanner, Scanned(scanner, name, s.registry.Keys + {name}, s.registry.Keys, m));
    var scanned := Scanned(scanner, name, s.registry.Keys + {name}, s.registry.Keys, m);
    EndsHolding(scanned, name);
    var t :| Reaches(scanned, t) && Running(t, name, Holding);
    ReachesJoins(s, scanner, scanned);
    ReachesJoins(s, scanned, t);
  }

  /** The same, for whatever the protocol has been through. */
  lemma ObtainableAfter(events: seq<Event>, name: Name, p: Process, owner: LockOwner)
    requires var s := Run(Start, events);
             p in s.alive && RecordedBy(owner, p) && name !in s.attempts && forall n :: Provable(s, p, n)
    ensures exists t :: Reaches(Run(Start, events), t) && Running(t, name, Holding)
  {
    RunKeeps(Start, events);
    ObtainableAgain(Run(Start, events), name, p, owner);
  }

  /** What a process can say about itself with all its evidence. */
  function FullRecord(p: Process): LockOwner {
    LockOwner(p.host, p.platform, p.pid,
              if p.platform == "linux" then Some(Linux(p.bootId, Some(p.machineId), p.pidNamespace, p.startTime))
              else None)
  }

  /** A dead owner on the same boot is provable unless a process that has its pid started at the very same tick. */
  lemma DeadOnSameBoot(owner: LockOwner, r: Process, p: Process, alive: set<Process>) returns (o: Observation)
    requires RecordedBy(owner, r) && owner.linux.Some? && p.platform == "linux" && p.host == r.host
    requires owner.linux.value.machineId.Some? ==> r.machineId == p.machineId
    requires SamePidTable(r, p) && r !in alive
    requires forall q, u :: q in alive && u in alive ==> Coexist(q, u)
    requires forall q :: q in alive && SamePidTable(q, p) && q.pid == r.pid ==> q.startTime != r.startTime
    ensures LockOwnerStatus(owner, o) == Status.Dead && o.current == Some(FullRecord(p)) && RecordedBy(FullRecord(p), p)
    ensures Truthful(o, p, owner.pid, alive)
  {
    if q :| q in alive && SamePidTable(q, p) && q.pid == r.pid {
      o := Observation(Some(FullRecord(p)), Some(Exists), Some(StartedAt(q.startTime)), None);
    } else {
      o := Observation(Some(FullRecord(p)), Some(NoSuchProcess), None, None);
    }
  }

  /** An owner from an earlier boot of the same machine is provable. */
  lemma DeadBeforeReboot(owner: LockOwner, p: Process) returns (o: Observation)
    requires p.platform == "linux" && owner.platform == "linux" && owner.host == p.host && owner.linux.Some?
    requires owner.linux.value.machineId == Some(p.machineId) && owner.linux.value.bootId != p.bootId
    ensures LockOwnerStatus(owner, o) == Status.Dead && o.current == Some(FullRecord(p)) && RecordedBy(FullRecord(p), p)
    ensures forall alive :: Truthful(o, p, owner.pid, alive)
  {
    o := Observation(Some(FullRecord(p)), None, None, None);
  }
}
