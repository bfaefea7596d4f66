/** Evidence about the process behind a lock, and what may be concluded from it. */
module LockOwners {
  import opened Wrappers

  /** What a claim records; linux evidence is present only when all of it could be observed. */
  datatype Linux = Linux(bootId: string, machineId: Option<string>, pidNamespace: string, startTime: nat)

  datatype LockOwner = LockOwner(host: string, platform: string, pid: nat, linux: Option<Linux>)

  /** A process instance in the world; an instance is never reused. */
  datatype Process = Process(
    machine: nat, host: string, platform: string, bootId: string, machineId: string,
    pidNamespace: string, pid: nat, startTime: nat)

  datatype Status = Live | Dead | Unknown

  /** The outcome of signal zero, by error code. */
  datatype Probe = Exists | NoSuchProcess | ProbeFailed

  /** Reading the target's start time: parsed, absent (ENOENT or ESRCH), or unusable. */
  datatype Stat = StartedAt(ticks: nat) | Absent | Unusable

  /** The observations of one status query, in the order they are made. */
  datatype Observation = Observation(
    current: Option<LockOwner>, probe: Option<Probe>, stat: Option<Stat>, confirm: Option<Probe>)

  const Nothing := Observation(None, None, None, None)

  function ProbeStatus(probe: Option<Probe>): Status {
    match probe
    case Some(Exists) => Live
    case Some(NoSuchProcess) => Dead
    case _ => Unknown
  }

  function LockOwnerStatus(recorded: LockOwner, o: Observation): Status {
    if o.current.None? || recorded.host != o.current.value.host || recorded.platform != o.current.value.platform
    then Unknown
    else if o.current.value.platform != "linux" then
      if recorded.linux.Some? then Unknown else ProbeStatus(o.probe)
    else if recorded.linux.None? || o.current.value.linux.None? then Unknown
    else
      var prior, local := recorded.linux.value, o.current.value.linux.value;
      if prior.machineId.Some? && local.machineId.Some? && prior.machineId != local.machineId then Unknown
      else if prior.bootId != local.bootId then
        if prior.machineId.Some? && prior.machineId == local.machineId then Dead else Unknown
      else if prior.pidNamespace != local.pidNamespace then Unknown
      else if ProbeStatus(o.probe) != Live then ProbeStatus(o.probe)
      else match o.stat
           case Some(StartedAt(ticks)) => if ticks != prior.startTime then Dead else Live
           case Some(Absent) => if ProbeStatus(o.confirm) == Dead then Dead else Unknown
           case _ => Unknown
  }

  // ---- The world ----

  /** The owner record a process writes about itself, possibly without the optional evidence. */
  predicate RecordedBy(owner: LockOwner, p: Process) {
    && owner.host == p.host && owner.platform == p.platform && owner.pid == p.pid
    && (owner.linux.Some? ==>
          && p.platform == "linux"
          && owner.linux.value.bootId == p.bootId
          && owner.linux.value.pidNamespace == p.pidNamespace
          && owner.linux.value.startTime == p.startTime
          && (owner.linux.value.machineId.Some? ==> owner.linux.value.machineId.value == p.machineId))
  }

  /** Both processes number pids in the same table. */
  predicate SamePidTable(p: Process, q: Process) {
    p.machine == q.machine && p.bootId == q.bootId && p.pidNamespace == q.pidNamespace
  }

  /** Identifiers mean what they are documented to mean, for every process that ever ran. */
  predicate Identified(p: Process, q: Process) {
    && (p.platform == "linux" && q.platform == "linux" && p.bootId == q.bootId ==> p.machine == q.machine)
    && (p.platform == "linux" && q.platform == "linux" && p.machineId == q.machineId ==> p.machine == q.machine)
    && (p.platform == q.platform && p.platform != "linux" && p.host == q.host ==> SamePidTable(p, q))
  }

  /** Running processes of one machine belong to its current boot; pids are unique in their table. */
  predicate Coexist(p: Process, q: Process) {
    && (p.machine == q.machine ==> p.bootId == q.bootId)
    && (SamePidTable(p, q) && p.pid == q.pid ==> p == q)
  }

  predicate WorldOk(alive: set<Process>, ever: set<Process>) {
    && alive <= ever
    && (forall p, q :: p in ever && q in ever ==> Identified(p, q))
    && (forall p, q :: p in alive && q in alive ==> Coexist(p, q))
  }

  /** A probe made now by `q` tells the truth about pid `pid` in its table. */
  predicate TruthfulProbe(probe: Probe, q: Process, pid: nat, alive: set<Process>) {
    probe == NoSuchProcess ==> forall r :: r in alive && SamePidTable(r, q) ==> r.pid != pid
  }

  /** A start time read now belongs to the process that has the pid. */
  predicate TruthfulStat(stat: Stat, q: Process, pid: nat, alive: set<Process>) {
    stat.StartedAt? ==> forall r :: r in alive && SamePidTable(r, q) && r.pid == pid ==> r.startTime == stat.ticks
  }

  /** What the observations made so far prove about `p`. These facts survive any later change of the world. */
  predicate Faithful(o: Observation, q: Process, p: Process, alive: set<Process>) {
    && (o.current.Some? ==> RecordedBy(o.current.value, q))
    && (SamePidTable(p, q) && (o.probe == Some(NoSuchProcess) || o.confirm == Some(NoSuchProcess)) ==> p !in alive)
    && (SamePidTable(p, q) && o.stat.Some? && o.stat.value.StartedAt? && o.stat.value.ticks != p.startTime ==>
          p !in alive)
  }

  /** Only a process that is gone is ever reported dead. */
  lemma DeadIsGone(p: Process, q: Process, owner: LockOwner, o: Observation, alive: set<Process>, ever: set<Process>)
    requires WorldOk(alive, ever) && p in ever && q in alive
    requires RecordedBy(owner, p) && Faithful(o, q, p, alive)
    requires LockOwnerStatus(owner, o) == Dead
    ensures p !in alive
  {
    assert Identified(p, q);
    assert p in alive ==> Coexist(p, q);
  }
}
