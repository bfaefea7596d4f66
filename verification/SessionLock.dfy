/**
 * The session lock: publish an immutable claim, then scan the registry and collect the claims of dead owners.
 * Any number of processes run any number of attempts; scans are not atomic and processes may crash at any step.
 */
module SessionLock {
  import opened Wrappers
  import opened LockOwners

  /** A claim's file name is a fresh unique id and is never used again. */
  type Name = nat

  datatype Stage =
    | Staged          // claim written under a temporary name
    | Published       // renamed into the registry
    | Scanning        // between two directory entries
    | Reading         // an entry was returned and is being opened
    | Judging         // its owner is being observed
    | Removing        // its owner is proven dead
    | Checking        // scan finished; re-reading the own claim
    | Holding
    | Withdrawing     // acquisition failed
    | Ended

  /** `initial` is what the registry held when the scan was opened; `yielded` what it has returned since. */
  datatype Attempt = Attempt(
    process: Process, owner: LockOwner, stage: Stage,
    initial: set<Name>, yielded: set<Name>, target: Name, seen: LockOwner, observed: Observation)

  datatype Lock = Lock(
    alive: set<Process>, ever: set<Process>, registry: map<Name, LockOwner>, attempts: map<Name, Attempt>)

  datatype Event =
    | Spawn(process: Process)
    | Crash(process: Process)
    | Stage(name: Name, process: Process, owner: LockOwner)
    | Publish(name: Name)
    | OpenScan(name: Name)
    | YieldEntry(name: Name, entry: Name)
    | ReadEntry(name: Name)
    | ObserveSelf(name: Name, current: Option<LockOwner>)
    | ObserveProbe(name: Name, probe: Probe)
    | ObserveStat(name: Name, stat: LockOwners.Stat)
    | ObserveConfirm(name: Name, confirm: Probe)
    | Conclude(name: Name)
    | RemoveEntry(name: Name)
    | EndScan(name: Name)
    | CheckOwn(name: Name)
    | Fail(name: Name)
    | Withdraw(name: Name)
    | WithdrawFails(name: Name)
    | Release(name: Name)

  predicate Running(s: Lock, name: Name, stage: Stage) {
    name in s.attempts && s.attempts[name].process in s.alive && s.attempts[name].stage == stage
  }

  /** The name has been visible in the registry, or never will be. */
  predicate PastStaging(s: Lock, name: Name) {
    name in s.attempts && s.attempts[name].stage != Staged
  }

  function SetAttempt(s: Lock, name: Name, a: Attempt): Lock {
    s.(attempts := s.attempts[name := a])
  }

  function MoveTo(s: Lock, name: Name, stage: Stage): Lock
    requires name in s.attempts
  {
    SetAttempt(s, name, s.attempts[name].(stage := stage))
  }

  function Unlink(s: Lock, name: Name): Lock {
    s.(registry := s.registry - {name})
  }

  function Observe(s: Lock, name: Name, o: Observation): Lock
    requires name in s.attempts
  {
    SetAttempt(s, name, s.attempts[name].(observed := o))
  }

  /** Failing is possible at every step between publication and success. */
  predicate Fallible(stage: Stage) {
    stage in {Published, Scanning, Reading, Judging, Removing, Checking}
  }

  function Next(s: Lock, e: Event): Lock {
    match e
    case Spawn(p) =>
      if p in s.ever || !WorldOk(s.alive + {p}, s.ever + {p}) then s
      else s.(alive := s.alive + {p}, ever := s.ever + {p})
    case Crash(p) => s.(alive := s.alive - {p})
    case Stage(name, p, owner) =>
      if name in s.attempts || p !in s.alive || !RecordedBy(owner, p) then s
      else SetAttempt(s, name, Attempt(p, owner, Staged, {}, {}, name, owner, Nothing))
    case Publish(name) =>
      if !Running(s, name, Staged) then s
      else MoveTo(s.(registry := s.registry[name := s.attempts[name].owner]), name, Published)
    case OpenScan(name) =>
      if !Running(s, name, Published) then s
      else SetAttempt(s, name, s.attempts[name].(stage := Scanning, initial := s.registry.Keys, yielded := {}))
    case YieldEntry(name, entry) =>
      // any entry may be returned once; the own entry is passed over
      if !Running(s, name, Scanning) || !PastStaging(s, entry) || entry in s.attempts[name].yielded then s
      else if entry == name then SetAttempt(s, name, s.attempts[name].(yielded := s.attempts[name].yielded + {entry}))
      else SetAttempt(s, name, s.attempts[name].(
             stage := Reading, yielded := s.attempts[name].yielded + {entry}, target := entry))
    case ReadEntry(name) =>
      if !Running(s, name, Reading) then s
      else if s.attempts[name].target !in s.registry then MoveTo(s, name, Scanning)
      else SetAttempt(s, name, s.attempts[name].(
             stage := Judging, seen := s.registry[s.attempts[name].target], observed := Nothing))
    case ObserveSelf(name, current) =>
      if !Running(s, name, Judging) || (current.Some? && !RecordedBy(current.value, s.attempts[name].process)) then s
      else Observe(s, name, s.attempts[name].observed.(current := current))
    case ObserveProbe(name, probe) =>
      if !Running(s, name, Judging)
         || !TruthfulProbe(probe, s.attempts[name].process, s.attempts[name].seen.pid, s.alive) then s
      else Observe(s, name, s.attempts[name].observed.(probe := Some(probe)))
    case ObserveStat(name, stat) =>
      if !Running(s, name, Judging)
         || !TruthfulStat(stat, s.attempts[name].process, s.attempts[name].seen.pid, s.alive) then s
      else Observe(s, name, s.attempts[name].observed.(stat := Some(stat)))
    case ObserveConfirm(name, confirm) =>
      if !Running(s, name, Judging)
         || !TruthfulProbe(confirm, s.attempts[name].process, s.attempts[name].seen.pid, s.alive) then s
      else Observe(s, name, s.attempts[name].observed.(confirm := Some(confirm)))
    case Conclude(name) =>
      if !Running(s, name, Judging) then s
      else if LockOwnerStatus(s.attempts[name].seen, s.attempts[name].observed) == Dead then MoveTo(s, name, Removing)
      else MoveTo(s, name, Withdrawing)
    case RemoveEntry(name) =>
      if !Running(s, name, Removing) then s
      else MoveTo(Unlink(s, s.attempts[name].target), name, Scanning)
    case EndScan(name) =>
      // every entry present throughout the scan has been returned
      if !Running(s, name, Scanning)
         || !(s.attempts[name].initial * s.registry.Keys <= s.attempts[name].yielded) then s
      else MoveTo(s, name, Checking)
    case CheckOwn(name) =>
      if !Running(s, name, Checking) then s
      else MoveTo(s, name, if name in s.registry then Holding else Withdrawing)
    case Fail(name) =>
      if name !in s.attempts || s.attempts[name].process !in s.alive then s
      else if s.attempts[name].stage == Staged then MoveTo(s, name, Ended)
      else if Fallible(s.attempts[name].stage) then MoveTo(s, name, Withdrawing)
      else s
    case Withdraw(name) =>
      if !Running(s, name, Withdrawing) then s else MoveTo(Unlink(s, name), name, Ended)
    case WithdrawFails(name) =>
      if !Running(s, name, Withdrawing) then s else MoveTo(s, name, Ended)
    case Release(name) =>
      if !Running(s, name, Holding) then s else MoveTo(Unlink(s, name), name, Ended)
  }

  // ---- The invariant ----

  /** A claim whose owner still relies on it. */
  predicate LiveClaim(s: Lock, name: Name) {
    && name in s.attempts && s.attempts[name].process in s.alive
    && s.attempts[name].stage in {Published, Scanning, Reading, Judging, Removing, Checking, Holding}
  }

  predicate Opened(a: Attempt) {
    a.stage in {Scanning, Reading, Judging, Removing, Checking, Holding}
  }

  predicate Busy(a: Attempt) {
    a.stage in {Reading, Judging, Removing}
  }

  /** What an attempt has established about the entry it is looking at. */
  predicate TargetOk(s: Lock, a: Attempt)
    requires PastStaging(s, a.target)
  {
    var p := s.attempts[a.target].process;
    && p in s.ever && a.target in a.yielded
    && (a.stage == Judging ==>
          a.seen == s.attempts[a.target].owner && RecordedBy(a.seen, p) && Faithful(a.observed, a.process, p, s.alive))
    && (a.stage == Removing ==> p !in s.alive)
  }

  /** One claim: it records its own attempt and, while it is relied on, stays in the registry. */
  predicate Own(s: Lock, n: Name) {
    && (n in s.registry ==> PastStaging(s, n) && s.registry[n] == s.attempts[n].owner)
    && (n in s.attempts ==>
          var a := s.attempts[n];
          && a.process in s.ever && RecordedBy(a.owner, a.process)
          && (forall m :: m in a.initial ==> PastStaging(s, m))
          && (forall m :: m in a.yielded ==> PastStaging(s, m))
          && (Busy(a) && a.process in s.alive ==> a.target != n && PastStaging(s, a.target) && TargetOk(s, a)))
    && (LiveClaim(s, n) ==> n in s.registry)
  }

  /**
   * Two claims: entries already dealt with carry no live claim, whoever opened its scan later saw the earlier claim,
   * and a finished scan leaves no live claim among the entries it started from.
   */
  predicate Pair(s: Lock, n: Name, m: Name) {
    n != m && LiveClaim(s, n) && LiveClaim(s, m) && Opened(s.attempts[n]) ==>
      var a := s.attempts[n];
      && (m in a.yielded ==> Busy(a) && a.target == m)
      && (a.stage in {Checking, Holding} ==> m !in a.initial)
      && (Opened(s.attempts[m]) ==> m in a.initial || n in s.attempts[m].initial)
  }

  ghost predicate Inv(s: Lock) {
    WorldOk(s.alive, s.ever) && (forall n :: Own(s, n)) && (forall n, m :: Pair(s, n, m))
  }

  const Start := Lock({}, {}, map[], map[])

  /** Mutual exclusion follows from the invariant. */
  lemma Exclusive(s: Lock, n: Name, m: Name)
    requires Inv(s)
    requires Running(s, n, Holding) && Running(s, m, Holding)
    ensures n == m
  {
    assert Pair(s, n, m) && Pair(s, m, n);
  }

  // ---- Steps ----

  /** Nothing but the set of living processes changes, and no one already known is revived. */
  lemma WorldChangeKeeps(s: Lock, t: Lock)
    requires Inv(s) && t.attempts == s.attempts && t.registry == s.registry
    requires WorldOk(t.alive, t.ever) && s.ever <= t.ever && t.alive * s.ever <= s.alive
    ensures Inv(t)
  {
    forall n ensures Own(t, n) {
      assert Own(s, n);
    }
    forall n, m ensures Pair(t, n, m) {
      assert Own(s, n) && Own(s, m) && Pair(s, n, m);
    }
  }

  /**
   * The attempt `name` moves, and at most one entry without a live claim leaves the registry. Claims do not come to
   * life, so only what the moved attempt itself has established is left to check.
   */
  predicate Moves(s: Lock, t: Lock, name: Name) {
    && t.alive == s.alive && t.ever == s.ever && name in s.attempts && t.attempts.Keys == s.attempts.Keys
    && (forall n :: n in s.attempts && n != name ==> t.attempts[n] == s.attempts[n])
    && t.attempts[name].process == s.attempts[name].process && t.attempts[name].owner == s.attempts[name].owner
    && t.attempts[name].stage != Staged
    && t.registry.Keys <= s.registry.Keys
    && (forall n :: n in t.registry ==> t.registry[n] == s.registry[n])
    && (LiveClaim(t, name) ==> LiveClaim(s, name))
    && (forall n :: n in s.registry && n !in t.registry ==> !LiveClaim(t, n))
  }

  lemma MoveKeeps(s: Lock, t: Lock, name: Name)
    requires Inv(s) && Moves(s, t, name)
    requires Own(t, name)
    requires forall m :: Pair(t, name, m) && Pair(t, m, name)
    ensures Inv(t)
  {
    forall n ensures Own(t, n) {
      assert Own(s, n);
    }
    forall n, m ensures Pair(t, n, m) {
      assert Pair(s, n, m) && Pair(t, name, m) && Pair(t, n, name);
    }
  }

  lemma SpawnKeeps(s: Lock, p: Process)
    requires Inv(s)
    ensures Inv(Next(s, Spawn(p)))
  {
    WorldChangeKeeps(s, Next(s, Spawn(p)));
  }

  lemma CrashKeeps(s: Lock, p: Process)
    requires Inv(s)
    ensures Inv(Next(s, Crash(p)))
  {
    WorldChangeKeeps(s, Next(s, Crash(p)));
  }

  lemma StageKeeps(s: Lock, name: Name, p: Process, owner: LockOwner)
    requires Inv(s)
    ensures Inv(Next(s, Stage(name, p, owner)))
  {
    var t := Next(s, Stage(name, p, owner));
    forall n ensures Own(t, n) {
      assert Own(s, n);
    }
    forall n, m ensures Pair(t, n, m) {
      assert Pair(s, n, m);
    }
  }

  lemma PublishKeeps(s: Lock, name: Name)
    requires Inv(s)
    ensures Inv(Next(s, Publish(name)))
  {
    var t := Next(s, Publish(name));
    forall n ensures Own(t, n) {
      assert Own(s, n);
    }
    forall n, m ensures Pair(t, n, m) {
      assert Pair(s, n, m) && Own(s, n);
    }
  }

  lemma OpenScanKeeps(s: Lock, name: Name)
    requires Inv(s)
    ensures Inv(Next(s, OpenScan(name)))
  {
    var t := Next(s, OpenScan(name));
    if Running(s, name, Published) {
      assert Own(s, name);
      forall m | m in s.registry.Keys ensures PastStaging(t, m) {
        assert Own(s, m);
      }
      forall m ensures Pair(t, name, m) && Pair(t, m, name) {
        assert Own(s, m) && Pair(s, m, name);
      }
      MoveKeeps(s, t, name);
    }
  }

  lemma YieldKeeps(s: Lock, name: Name, entry: Name)
    requires Inv(s)
    ensures Inv(Next(s, YieldEntry(name, entry)))
  {
    var t := Next(s, YieldEntry(name, entry));
    if t != s {
      assert Own(s, name) && Own(s, entry);
      forall m ensures Pair(t, name, m) && Pair(t, m, name) {
        assert Pair(s, name, m) && Pair(s, m, name);
      }
      MoveKeeps(s, t, name);
    }
  }

  lemma ReadKeeps(s: Lock, name: Name)
    requires Inv(s)
    ensures Inv(Next(s, ReadEntry(name)))
  {
    var t := Next(s, ReadEntry(name));
    if Running(s, name, Reading) {
      assert Own(s, name) && Own(s, s.attempts[name].target);
      forall m ensures Pair(t, name, m) && Pair(t, m, name) {
        assert Pair(s, name, m) && Pair(s, m, name);
      }
      MoveKeeps(s, t, name);
    }
  }

  lemma ObserveKeeps(s: Lock, e: Event)
    requires Inv(s) && (e.ObserveSelf? || e.ObserveProbe? || e.ObserveStat? || e.ObserveConfirm?)
    ensures Inv(Next(s, e))
  {
    var t, name := Next(s, e), e.name;
    if t != s {
      assert Own(s, name);
      forall m ensures Pair(t, name, m) && Pair(t, m, name) {
        assert Pair(s, name, m) && Pair(s, m, name);
      }
      MoveKeeps(s, t, name);
    }
  }

  lemma ConcludeKeeps(s: Lock, name: Name)
    requires Inv(s)
    ensures Inv(Next(s, Conclude(name)))
  {
    var t := Next(s, Conclude(name));
    if Running(s, name, Judging) {
      assert Own(s, name);
      var a := s.attempts[name];
      if LockOwnerStatus(a.seen, a.observed) == Dead {
        DeadIsGone(s.attempts[a.target].process, a.process, a.seen, a.observed, s.alive, s.ever);
      }
      forall m ensures Pair(t, name, m) && Pair(t, m, name) {
        assert Pair(s, name, m) && Pair(s, m, name);
      }
      MoveKeeps(s, t, name);
    }
  }

  lemma RemoveKeeps(s: Lock, name: Name)
    requires Inv(s)
    ensures Inv(Next(s, RemoveEntry(name)))
  {
    var t := Next(s, RemoveEntry(name));
    if Running(s, name, Removing) {
      assert Own(s, name);
      forall m ensures Pair(t, name, m) && Pair(t, m, name) {
        assert Pair(s, name, m) && Pair(s, m, name);
      }
      MoveKeeps(s, t, name);
    }
  }

  lemma EndScanKeeps(s: Lock, name: Name)
    requires Inv(s)
    ensures Inv(Next(s, EndScan(name)))
  {
    var t := Next(s, EndScan(name));
    if t != s {
      assert Own(s, name);
      forall m ensures Pair(t, name, m) && Pair(t, m, name) {
        assert Pair(s, name, m) && Pair(s, m, name) && Own(s, m);
        assert LiveClaim(s, m) && m in s.attempts[name].initial ==> m in s.attempts[name].initial * s.registry.Keys;
      }
      MoveKeeps(s, t, name);
    }
  }

  lemma CheckOwnKeeps(s: Lock, name: Name)
    requires Inv(s)
    ensures Inv(Next(s, CheckOwn(name)))
  {
    var t := Next(s, CheckOwn(name));
    if t != s {
      assert Own(s, name);
      forall m ensures Pair(t, name, m) && Pair(t, m, name) {
        assert Pair(s, name, m) && Pair(s, m, name);
      }
      MoveKeeps(s, t, name);
    }
  }

  /** An attempt that no longer relies on its claim has nothing left to prove. */
  lemma IdleKeeps(s: Lock, t: Lock, name: Name)
    requires Inv(s) && Moves(s, t, name) && !LiveClaim(t, name) && !Busy(t.attempts[name])
    requires t.attempts[name].initial == s.attempts[name].initial
    requires t.attempts[name].yielded == s.attempts[name].yielded
    ensures Inv(t)
  {
    assert Own(s, name);
    forall m ensures Pair(t, name, m) && Pair(t, m, name) {
      assert !LiveClaim(t, name);
    }
    MoveKeeps(s, t, name);
  }

  lemma FailKeeps(s: Lock, name: Name)
    requires Inv(s)
    ensures Inv(Next(s, Fail(name)))
  {
    var t := Next(s, Fail(name));
    if t != s {
      IdleKeeps(s, t, name);
    }
  }

  lemma WithdrawFailsKeeps(s: Lock, name: Name)
    requires Inv(s)
    ensures Inv(Next(s, WithdrawFails(name)))
  {
    var t := Next(s, WithdrawFails(name));
    if t != s {
      IdleKeeps(s, t, name);
    }
  }

  lemma WithdrawKeeps(s: Lock, name: Name)
    requires Inv(s)
    ensures Inv(Next(s, Withdraw(name)))
  {
    var t := Next(s, Withdraw(name));
    if t != s {
      IdleKeeps(s, t, name);
    }
  }

  lemma ReleaseKeeps(s: Lock, name: Name)
    requires Inv(s)
    ensures Inv(Next(s, Release(name)))
  {
    var t := Next(s, Release(name));
    if t != s {
      IdleKeeps(s, t, name);
    }
  }

  lemma NextKeeps(s: Lock, e: Event)
    requires Inv(s)
    ensures Inv(Next(s, e))
  {
    match e
    case Spawn(p) => SpawnKeeps(s, p);
    case Crash(p) => CrashKeeps(s, p);
    case Stage(name, p, owner) => StageKeeps(s, name, p, owner);
    case Publish(name) => PublishKeeps(s, name);
    case OpenScan(name) => OpenScanKeeps(s, name);
    case YieldEntry(name, entry) => YieldKeeps(s, name, entry);
    case ReadEntry(name) => ReadKeeps(s, name);
    case ObserveSelf(_, _) => ObserveKeeps(s, e);
    case ObserveProbe(_, _) => ObserveKeeps(s, e);
    case ObserveStat(_, _) => ObserveKeeps(s, e);
    case ObserveConfirm(_, _) => ObserveKeeps(s, e);
    case Conclude(name) => ConcludeKeeps(s, name);
    case RemoveEntry(name) => RemoveKeeps(s, name);
    case EndScan(name) => EndScanKeeps(s, name);
    case CheckOwn(name) => CheckOwnKeeps(s, name);
    case Fail(name) => FailKeeps(s, name);
    case WithdrawFails(name) => WithdrawFailsKeeps(s, name);
    case Withdraw(name) => WithdrawKeeps(s, name);
    case Release(name) => ReleaseKeeps(s, name);
  }

  function Run(s: Lock, events: seq<Event>): Lock
    decreases |events|
  {
    if events == [] then s else Run(Next(s, events[0]), events[1..])
  }

  lemma {:induction false} RunKeeps(s: Lock, events: seq<Event>)
    requires Inv(s)
    ensures Inv(Run(s, events))
    decreases |events|
  {
    if events != [] {
      NextKeeps(s, events[0]);
      RunKeeps(Next(s, events[0]), events[1..]);
    }
  }

  /** Whatever the interleaving and the crashes, two live processes never both hold the lease. */
  lemma MutualExclusion(events: seq<Event>, n: Name, m: Name)
    requires Running(Run(Start, events), n, Holding) && Running(Run(Start, events), m, Holding)
    ensures n == m
  {
    RunKeeps(Start, events);
    Exclusive(Run(Start, events), n, m);
  }

  /** A claim of a live owner leaves the registry only by that owner's own hand. */
  lemma RemovedOnlyByOwner(events: seq<Event>, e: Event, n: Name)
    requires var s := Run(Start, events);
             && n in s.registry && n !in Next(s, e).registry
             && n in s.attempts && s.attempts[n].process in s.alive
    ensures e == Withdraw(n) || e == Release(n)
  {
    RunKeeps(Start, events);
    RemovalNeedsDeath(Run(Start, events), e, n);
  }

  lemma RemovalNeedsDeath(s: Lock, e: Event, n: Name)
    requires Inv(s) && n in s.registry && n !in Next(s, e).registry
    requires n in s.attempts && s.attempts[n].process in s.alive
    ensures e == Withdraw(n) || e == Release(n)
  {
    assert !e.Spawn? && !e.Crash? ==> Own(s, e.name);
  }

  ghost predicate Reaches(s: Lock, t: Lock) {
    exists events :: Run(s, events) == t
  }

  lemma StepReaches(s: Lock, e: Event, t: Lock)
    requires Reaches(Next(s, e), t)
    ensures Reaches(s, t)
  {
    var events :| Run(Next(s, e), events) == t;
    assert ([e] + events)[1..] == events;
    assert Run(s, [e] + events) == t;
  }

  /** A claim published by the only process around is found alone by its scan. */
  lemma SoleClaim(p: Process, owner: LockOwner) returns (s: Lock)
    requires RecordedBy(owner, p)
    ensures s == Next(Next(Next(Next(Start, Spawn(p)), Stage(0, p, owner)), Publish(0)), OpenScan(0))
    ensures s == Lock({p}, {p}, map[0 := owner],
                      map[0 := Attempt(p, owner, Scanning, {0}, {}, 0, owner, Nothing)])
  {
    var s1 := Next(Start, Spawn(p));
    assert s1 == Lock({p}, {p}, map[], map[]);
    var s2 := Next(s1, Stage(0, p, owner));
    var s3 := Next(s2, Publish(0));
    s := Next(s3, OpenScan(0));
    assert s.registry.Keys == {0};
  }

  /** Its scan passes over its own claim and ends, and the claim is still there. */
  lemma SoleScan(s: Lock, p: Process, owner: LockOwner) returns (t: Lock)
    requires s == Lock({p}, {p}, map[0 := owner], map[0 := Attempt(p, owner, Scanning, {0}, {}, 0, owner, Nothing)])
    ensures t == Next(Next(Next(s, YieldEntry(0, 0)), EndScan(0)), CheckOwn(0))
    ensures Running(t, 0, Holding)
  {
    var s1 := Next(s, YieldEntry(0, 0));
    assert s1.attempts[0].yielded == {0};
    var s2 := Next(s1, EndScan(0));
    assert s2.attempts[0].stage == Checking;
    t := Next(s2, CheckOwn(0));
  }

  /** The lease can be had: a sole contender that follows the protocol ends up holding it. */
  lemma Obtainable(p: Process, owner: LockOwner)
    requires RecordedBy(owner, p)
    ensures exists t :: Reaches(Start, t) && Running(t, 0, Holding)
  {
    var s := SoleClaim(p, owner);
    var t := SoleScan(s, p, owner);
    assert Run(t, []) == t;
    var e := [Spawn(p), Stage(0, p, owner), Publish(0)];
    ReachesThree(s, YieldEntry(0, 0), EndScan(0), CheckOwn(0), t);
    StepReaches(Next(Next(Next(Start, e[0]), e[1]), e[2]), OpenScan(0), t);
    ReachesThree(Start, e[0], e[1], e[2], t);
  }

  lemma ReachesThree(s: Lock, a: Event, b: Event, c: Event, t: Lock)
    requires Reaches(Next(Next(Next(s, a), b), c), t)
    ensures Reaches(s, t)
  {
    StepReaches(Next(Next(s, a), b), c, t);
    StepReaches(Next(s, a), b, t);
    StepReaches(s, a, t);
  }
}
