/** When a dead owner can be told to be dead, and so when the lease of a crashed or finished owner can be had. */
module LockRecovery {
  import opened Wrappers
  import opened LockOwners
  import opened SessionLock
  import opened ClaimCollection

  // ---- What can be deduced ----

  /** Nobody running now has this pid in the pid table of `p`. */
  predicate NobodyHas(pid: nat, p: Process, alive: set<Process>) {
    forall r :: r in alive && SamePidTable(r, p) ==> r.pid != pid
  }

  /** Somebody running now has it, but started at another tick. */
  predicate Reused(pid: nat, ticks: nat, p: Process, alive: set<Process>) {
    exists r :: r in alive && SamePidTable(r, p) && r.pid == pid && r.startTime != ticks
  }

  /** What must hold of the world for `p`, which describes itself as `current`, to find out that the owner is dead. */
  predicate Deducible(owner: LockOwner, current: LockOwner, p: Process, alive: set<Process>) {
    && owner.host == current.host && owner.platform == current.platform
    && if owner.platform != "linux" then owner.linux.None? && NobodyHas(owner.pid, p, alive)
       else
         && owner.linux.Some? && current.linux.Some?
         && var prior, local := owner.linux.value, current.linux.value;
            if prior.bootId != local.bootId then prior.machineId.Some? && prior.machineId == local.machineId
            else
              && (prior.machineId.Some? && local.machineId.Some? ==> prior.machineId == local.machineId)
              && prior.pidNamespace == local.pidNamespace
              && (NobodyHas(owner.pid, p, alive) || Reused(owner.pid, prior.startTime, p, alive))
  }

  ghost predicate FoundDead(owner: LockOwner, current: LockOwner, p: Process, alive: set<Process>) {
    exists o: Observation ::
      o.current == Some(current) && Truthful(o, p, owner.pid, alive) && LockOwnerStatus(owner, o) == Status.Dead
  }

  /** Some truthful observation reports the owner dead if and only if its death can be deduced from the world. */
  lemma DeadExactly(owner: LockOwner, current: LockOwner, p: Process, alive: set<Process>)
    requires forall q, r :: q in alive && r in alive ==> Coexist(q, r)
    ensures FoundDead(owner, current, p, alive) <==> Deducible(owner, current, p, alive)
  {
    if FoundDead(owner, current, p, alive) {
      var o: Observation :|
        o.current == Some(current) && Truthful(o, p, owner.pid, alive) && LockOwnerStatus(owner, o) == Status.Dead;
      Deduced(owner, current, p, alive, o);
    }
    if Deducible(owner, current, p, alive) {
      var o := Evidence(owner, current, p, alive);
    }
  }

  lemma Deduced(owner: LockOwner, current: LockOwner, p: Process, alive: set<Process>, o: Observation)
    requires o.current == Some(current) && Truthful(o, p, owner.pid, alive)
    requires LockOwnerStatus(owner, o) == Status.Dead
    ensures Deducible(owner, current, p, alive)
  {
  }

  /** The observation that tells. */
  lemma Evidence(owner: LockOwner, current: LockOwner, p: Process, alive: set<Process>) returns (o: Observation)
    requires forall q, r :: q in alive && r in alive ==> Coexist(q, r)
    requires Deducible(owner, current, p, alive)
    ensures o.current == Some(current) && Truthful(o, p, owner.pid, alive)
    ensures LockOwnerStatus(owner, o) == Status.Dead
  {
    if NobodyHas(owner.pid, p, alive) {
      o := Observation(Some(current), Some(NoSuchProcess), None, None);
    } else if r :| r in alive && SamePidTable(r, p) && r.pid == owner.pid {
      o := Observation(Some(current), Some(Exists), Some(StartedAt(r.startTime)), None);
    }
  }

  /** An owner that vanishes between the probe and the reading of its start time is found dead by the second probe. */
  lemma DeadByConfirmation(owner: LockOwner, current: LockOwner, p: Process, alive: set<Process>)
    requires Deducible(owner, current, p, alive) && owner.platform == "linux"
    requires owner.linux.value.bootId == current.linux.value.bootId && NobodyHas(owner.pid, p, alive)
    ensures var o := Observation(Some(current), Some(Exists), Some(Absent), Some(NoSuchProcess));
            Truthful(o, p, owner.pid, alive) && LockOwnerStatus(owner, o) == Status.Dead
  {
  }

  // ---- Crashed owners ----

  /**
   * The claim's owner ran on this host and is gone. On Linux it could read who it was, and either its pid is free or
   * taken by a process of another tick, or the machine has rebooted since; elsewhere its pid is free.
   */
  predicate Gone(s: Lock, p: Process, n: Name) {
    n in s.registry && n in s.attempts ==>
      var owner, r := s.registry[n], s.attempts[n].process;
      && r !in s.alive && r.host == p.host && r.platform == p.platform
      && if r.platform != "linux" then NobodyHas(r.pid, p, s.alive)
         else
           && owner.linux.Some?
           && if r.bootId != p.bootId then owner.linux.value.machineId.Some? && r.machineId == p.machineId
              else
                && (owner.linux.value.machineId.Some? ==> r.machineId == p.machineId)
                && r.pidNamespace == p.pidNamespace
                && forall q :: q in s.alive && SamePidTable(q, p) && q.pid == r.pid ==> q.startTime != r.startTime
  }

  lemma GoneProvable(s: Lock, p: Process, n: Name)
    requires Inv(s) && Gone(s, p, n)
    ensures Provable(s, p, n)
  {
    assert Own(s, n);
    if n in s.registry {
      var owner, r := s.registry[n], s.attempts[n].process;
      GoneDeducible(owner, r, p, s.alive);
      var o := Evidence(owner, FullRecord(p), p, s.alive);
      assert Proves(s, p, n, o);
    }
  }

  lemma GoneDeducible(owner: LockOwner, r: Process, p: Process, alive: set<Process>)
    requires RecordedBy(owner, r) && r.host == p.host && r.platform == p.platform
    requires if r.platform != "linux" then NobodyHas(r.pid, p, alive)
             else
               && owner.linux.Some?
               && if r.bootId != p.bootId then owner.linux.value.machineId.Some? && r.machineId == p.machineId
                  else
                    && (owner.linux.value.machineId.Some? ==> r.machineId == p.machineId)
                    && r.pidNamespace == p.pidNamespace
                    && forall q :: q in alive && SamePidTable(q, p) && q.pid == r.pid ==> q.startTime != r.startTime
    ensures Deducible(owner, FullRecord(p), p, alive) && RecordedBy(FullRecord(p), p)
  {
    if !NobodyHas(r.pid, p, alive) && r.platform == "linux" && r.bootId == p.bootId {
      var q :| q in alive && SamePidTable(q, p) && q.pid == r.pid;
      assert Reused(owner.pid, owner.linux.value.startTime, p, alive);
    }
  }

  /** Whatever happened before, once every owner left in the registry is gone the lease can be had again. */
  lemma ObtainableAfterCrashes(events: seq<Event>, name: Name, p: Process, owner: LockOwner)
    requires var s := Run(Start, events);
             p in s.alive && RecordedBy(owner, p) && name !in s.attempts && forall n :: Gone(s, p, n)
    ensures exists t :: Reaches(Run(Start, events), t) && Running(t, name, Holding)
  {
    var s := Run(Start, events);
    RunKeeps(Start, events);
    forall n ensures Provable(s, p, n) {
      GoneProvable(s, p, n);
    }
    ObtainableAgain(s, name, p, owner);
  }

  // ---- Release ----

  /** Releasing takes the holder's claim out of the registry, and no other. */
  lemma ReleaseFrees(s: Lock, n: Name)
    requires Running(s, n, Holding)
    ensures Next(s, Release(n)).registry == s.registry - {n}
    ensures Next(s, Release(n)).alive == s.alive && Next(s, Release(n)).attempts.Keys == s.attempts.Keys
    ensures forall m :: m in s.attempts && m != n ==> Next(s, Release(n)).attempts[m] == s.attempts[m]
    ensures !Running(Next(s, Release(n)), n, Holding)
  {
  }

  /** A released lease can be taken by anyone, if all other owners left in the registry are gone. */
  lemma LeaseChangesHands(events: seq<Event>, n: Name, name: Name, p: Process, owner: LockOwner)
    requires var s := Run(Start, events);
             && Running(s, n, Holding) && p in s.alive && RecordedBy(owner, p) && name !in s.attempts
             && forall m :: m != n ==> Gone(s, p, m)
    ensures exists t :: Reaches(Next(Run(Start, events), Release(n)), t) && Running(t, name, Holding)
  {
    var s := Run(Start, events);
    var t := Next(s, Release(n));
    RunKeeps(Start, events);
    NextKeeps(s, Release(n));
    ReleaseFrees(s, n);
    forall m ensures Provable(t, p, m) {
      if m != n {
        assert Gone(s, p, m);
        assert m in t.registry ==> t.registry[m] == s.registry[m];
        GoneProvable(t, p, m);
      }
    }
    ObtainableAgain(t, name, p, owner);
  }

  /** An attempt that fails after publishing takes its claim back, if it can. */
  lemma FailedGivesWay(s: Lock, n: Name)
    requires n in s.attempts && s.attempts[n].process in s.alive && Fallible(s.attempts[n].stage)
    ensures var t := Run(s, [Fail(n), Withdraw(n)]);
            t.registry == s.registry - {n} && t.alive == s.alive && !LiveClaim(t, n)
  {
    var a := Next(s, Fail(n));
    assert Running(a, n, Withdrawing);
    assert [Fail(n), Withdraw(n)][1..] == [Withdraw(n)] && [Withdraw(n)][1..] == [];
    assert Run(s, [Fail(n), Withdraw(n)]) == Run(a, [Withdraw(n)]) == Run(Next(a, Withdraw(n)), []);
  }
}
