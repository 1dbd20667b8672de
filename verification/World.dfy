/**
 * The updater's disk inside its host: unit completions, reboots and a history of what happened.
 * The invariant below is claimed after every single durable write.
 */
module Worlds {
  import opened Options
  import opened AgentUpdate
  import opened LocalPolicy
  import opened Trust
  import opened Journals
  import opened Disks
  import opened Hosts
  import opened Activate
  import opened Download
  import opened Runtime

  // ---- the host -------------------------------------------------------------------------------------

  datatype UnitName = PreflightUnit | StopUnit

  datatype Completion = Completion(unit: UnitName, boot: string, exit: string, success: bool)

  /** The last exit systemd still reports for a unit in this boot, if any. */
  datatype UnitState = UnitState(exit: string, success: bool)

  datatype Env = Env(
    boot: string, boots: set<string>, units: map<UnitName, UnitState>, log: seq<Completion>)

  /** One trial tick that ran to the point where its evidence took effect, and what it saw of the agent. */
  datatype Observation = Observation(boot: string, now: nat, evidence: Option<Evidence>, sight: Sight)

  datatype Acceptance = Acceptance(request: Request, at: nat)

  /** An artifact committed when `after` requests had been accepted. */
  datatype Commitment = Commitment(artifact: Artifact, after: nat)

  /**
   * `commits`, `accepted`: every committed artifact and accepted request. `trial`, `failedBase`,
   * `preparedAt`, `stoppedAt` concern the current transaction; the last two are positions in the
   * completion log. The remaining fields describe the running command only.
   */
  datatype History = History(
    commits: set<Commitment>,
    accepted: seq<Acceptance>,
    trial: seq<Observation>,
    failedBase: seq<Digest>,
    preparedAt: nat,
    stoppedAt: nat,
    sampledAt: nat,
    quiet: bool,
    note: Option<Observation>,
    flipping: bool,
    accepting: bool)

  datatype State = State(disk: Disk, hist: History)

  predicate Accepts(was: Journal, j: Journal) {
    j.remote.Some? &&
    (was.remote.None? || was.remote.value.request != j.remote.value.request
     || was.remote.value.acceptedAt != j.remote.value.acceptedAt)
  }

  /** A journal write that starts a transaction. */
  predicate Begins(was: Journal, j: Journal) {
    Terminal(was.phase) && (j.phase == Phase.Prepared || j.tx != was.tx)
  }

  /** What the history learns from a journal write. */
  function Remember(h: History, was: Journal, j: Journal): History {
    var h1 := if h.note.Some? then h.(trial := h.trial + [h.note.value], note := None) else h;
    var h2 := if Accepts(was, j)
              then h1.(accepted := h1.accepted + [Acceptance(j.remote.value.request, j.remote.value.acceptedAt)],
                       accepting := true)
              else h1;
    if Begins(was, j) then
      h2.(preparedAt := h2.sampledAt, trial := [], failedBase := was.failed)
    else if j.phase == Phase.Stopping && was.phase != Phase.Stopping then h2.(stoppedAt := h2.sampledAt)
    else if j.phase == Phase.Trial && was.phase != Phase.Trial then h2.(flipping := true)
    else if j.phase == Phase.Committed && was.phase != Phase.Committed then
      h2.(commits := h2.commits + {Commitment(j.installed, |h2.accepted|)})
    else h2
  }

  function Do(s: State, w: Write): State {
    State(Apply(s.disk, w),
          if w.SaveJournal? then Remember(s.hist, s.disk.journal, Snapshot(w.state)) else s.hist)
  }

  function DoAll(s: State, ws: seq<Write>): State
    decreases |ws|
  {
    if ws == [] then s else DoAll(Do(s, ws[0]), ws[1..])
  }

  // ---- what one durable write may do ------------------------------------------------------------------

  predicate SameTrust(a: Journal, b: Journal) {
    && a.seenSequence == b.seenSequence && a.seenDigest == b.seenDigest
    && a.hardFloor == b.hardFloor && a.timeHigh == b.timeHigh
    && a.cache == b.cache && a.inventory == b.inventory && a.roots == b.roots
  }

  predicate SameScope(a: Journal, b: Journal) {
    a.schema == b.schema && a.anchor == b.anchor && a.channel == b.channel && a.target == b.target
  }

  /** The same transaction, whatever its deadlines and evidence. */
  predicate SameDeal(a: Journal, b: Journal) {
    a.tx.Some? && b.tx.Some?
    && a.tx.value.from == b.tx.value.from && a.tx.value.to == b.tx.value.to
    && a.tx.value.oldInvocation == b.tx.value.oldInvocation
  }

  /** Everything that only ever moves one way. */
  predicate Forward(a: Journal, b: Journal) {
    && a.seenSequence <= b.seenSequence
    && (a.seenSequence == b.seenSequence ==> a.seenDigest == b.seenDigest)
    && a.hardFloor <= b.hardFloor
    && a.installed.sequence <= b.installed.sequence
    && a.failed <= b.failed
    && (forall v | v in a.roots :: v in b.roots && a.roots[v] == b.roots[v])
  }

  function Rank(p: Phase): nat {
    match p
    case Stable => 0
    case Prepared => 1
    case Stopping => 2
    case Trial => 3
    case RollbackIntent => 4
    case Committed => 5
    case RolledBack => 5
    case ManualRecovery => 6
  }

  /**
   * A new transaction on a settled journal. It may appear already latched: a failed save of the
   * prepared journal is followed by the latch's own.
   */
  predicate Starts(a: Journal, b: Journal) {
    && Terminal(a.phase) && b.tx.Some? && b.phase in {Phase.Prepared, Phase.ManualRecovery}
    && b.tx.value.from == a.installed
    && b.tx.value.to.sequence > a.installed.sequence
    && b.tx.value.to == Candidate(a)
    && b.tx.value.to.digest !in a.failed
    && b.failed == a.failed
  }

  /** A move forwards within the current transaction. */
  predicate Advances(a: Journal, b: Journal) {
    && (a.tx.Some? ==> SameDeal(a, b))
    && (a.tx.None? ==> b.tx.None?)
    && (Terminal(a.phase) ==> b.phase == a.phase || b.phase == Phase.ManualRecovery)
    && (a.phase == Phase.ManualRecovery ==> b.phase == Phase.ManualRecovery)
    && Rank(a.phase) <= Rank(b.phase)
    && (b.phase == Phase.Trial ==> a.phase in {Phase.Stopping, Phase.Trial})
    && (b.phase == Phase.Committed ==> a.phase in {Phase.Trial, Phase.Committed})
    && (b.phase == Phase.Stopping ==> a.phase in {Phase.Prepared, Phase.Stopping})
    && (b.phase == Phase.RollbackIntent ==> a.phase in {Phase.Trial, Phase.RollbackIntent})
    && (b.failed == a.failed
        || (a.tx.Some? && a.phase in {Phase.Prepared, Phase.Trial} && b.failed == a.failed + [a.tx.value.to.digest]))
  }

  predicate PhaseMove(a: Journal, b: Journal) {
    Starts(a, b) || Advances(a, b)
  }

  /** `installed` moves only when a trial commits, and then to the transaction's target. */
  predicate InstallMove(a: Journal, b: Journal) {
    if a.phase == Phase.Trial && b.phase == Phase.Committed
    then a.tx.Some? && b.installed == a.tx.value.to
    else b.installed == a.installed
  }

  /** A request is replaced only by a later one; a reported commit stays reported. */
  predicate RemoteMove(a: Journal, b: Journal) {
    a.remote.Some? ==>
      && b.remote.Some?
      && (Accepts(a, b) ==>
            b.remote.value.acceptedAt >= a.remote.value.acceptedAt + UPDATE_COOLDOWN_SECS)
      && (!Accepts(a, b) && a.remote.value.status.phase == UpdatePhase.Committed ==>
            || b.phase == Phase.ManualRecovery
            || (b.remote.value.status.phase == UpdatePhase.Committed
                && b.remote.value.target == a.remote.value.target
                && b.remote.value.status.targetSequence == a.remote.value.status.targetSequence))
  }

  /** All two-state rules for a journal write. */
  ghost predicate Evolves(a: Journal, b: Journal) {
    && SameScope(a, b)
    && (Terminal(a.phase) || SameTrust(a, b))
    && Forward(a, b)
    && PhaseMove(a, b)
    && InstallMove(a, b)
    && RemoteMove(a, b)
  }

  predicate Convincing(tx: Transaction, o: Observation, invocation: string) {
    && o.boot == tx.boot
    && o.evidence.Some?
    && o.evidence.value.invocation == invocation
    && o.evidence == o.sight.file
    && Convinces(o.evidence.value, o.sight, tx.to.digest)
  }

  /** From tick `k` on, every completed tick saw the same healthy new invocation of `to`. */
  predicate Streak(tx: Transaction, trial: seq<Observation>, k: nat, invocation: string) {
    && k < |trial|
    && invocation != tx.oldInvocation
    && forall i | k <= i < |trial| :: Convincing(tx, trial[i], invocation)
  }

  /** The streak that earns a commit. */
  ghost predicate Earned(p: Policy, tx: Transaction, trial: seq<Observation>) {
    exists k: nat, invocation: string :: Earns(p, tx, trial, k, invocation)
  }

  predicate Earns(p: Policy, tx: Transaction, trial: seq<Observation>, k: nat, invocation: string) {
    && Streak(tx, trial, k, invocation)
    && var last := trial[|trial| - 1];
    && last.now >= trial[k].now + p.stabilitySeconds * 1000
    && last.evidence.value.collectedAt >= trial[k].evidence.value.collectedAt + p.stabilitySeconds * 1000
  }

  /** What the root bridge may be asked for: a preflight, a stop, or the restart of what `active` now names. */
  predicate MayAsk(d: Disk, mark: Mark) {
    var j := d.journal;
    match mark
    case PreflightMark => j.phase == Phase.Prepared
    case StopMark => j.phase == Phase.Stopping
    case RestartMark =>
      && j.tx.Some?
      && ((j.phase == Phase.Trial && d.active == j.tx.value.to.digest)
          || (j.phase == Phase.RollbackIntent && d.active == j.tx.value.from.digest))
  }

  /** The rule every executed durable write obeys. */
  ghost predicate Permitted(p: Policy, s: State, w: Write) {
    var j := s.disk.journal;
    match w
    case SaveJournal(state) =>
      && Evolves(j, Snapshot(state))
      && (j.phase == Phase.Trial && state.phase == Phase.Committed ==>
            Earned(p, j.tx.value, Do(s, w).hist.trial))
    case PointActive(digest) =>
      && j.tx.Some?
      && ((j.phase == Phase.Trial && s.hist.flipping && digest == j.tx.value.to.digest)
          || (j.phase == Phase.RollbackIntent && digest == j.tx.value.from.digest))
    case PutMark(mark) => MayAsk(s.disk, mark)
    case PutObject(digest) => Terminal(j.phase) && digest == j.seenDigest
    case PointCandidate(digest) =>
      && Terminal(j.phase) && digest == j.seenDigest && digest !in j.failed
      && j.seenSequence > j.installed.sequence >= j.hardFloor
    case RemovePending => !Open(j.phase)
    case MakeGeneration(id) => |s.disk.generations| < 128 && id !in s.disk.generations
    case FillGeneration(id, _) => Some(id) != j.cache
    case PutRoot(root) => 0 < root.version && 0 < root.threshold <= |root.keys * root.signers|
    case DropObject(digest) => Terminal(j.phase) && digest !in Pins(j)
    case DropGeneration(id) => Terminal(j.phase) && Some(id) != j.cache
    case _ => true
  }

  // ---- the invariant ----------------------------------------------------------------------------------

  /** A `Committed` journal that was latched: no later load accepts it. */
  predicate Dead(j: Journal) {
    j.phase == Phase.ManualRecovery && j.tx.Some? && j.installed == j.tx.value.to
  }

  predicate Lawful(p: Policy, j: Journal) {
    && (if Dead(j) then !Validate(p, j) else Validate(p, j))
    && j == Snapshot(j)
    && p.minimumSequence <= j.hardFloor
    && (j.remote.Some? ==> j.remote.value.acceptedAt + UPDATE_COOLDOWN_SECS < LIMIT_53)
  }

  /** Where `active` points, phase by phase. */
  predicate Pointer(d: Disk) {
    var j := d.journal;
    match j.phase
    case Stable => j.tx.None? && d.active == j.installed.digest
    case Committed => j.tx.Some? && j.installed == j.tx.value.to && d.active == j.installed.digest
    case RolledBack => j.tx.Some? && j.installed == j.tx.value.from && d.active == j.installed.digest
    case Prepared => j.tx.Some? && d.active == j.tx.value.from.digest
    case Stopping => j.tx.Some? && d.active == j.tx.value.from.digest
    case Trial => j.tx.Some? && d.active in {j.tx.value.from.digest, j.tx.value.to.digest}
    case RollbackIntent => j.tx.Some? && d.active in {j.tx.value.from.digest, j.tx.value.to.digest}
    case ManualRecovery => true
  }

  ghost predicate TrustKept(p: Policy, d: Disk) {
    && Chain(p.bootstrap, d.journal.roots)
    && (p.bootstrap.version in d.journal.roots ==> d.journal.roots[p.bootstrap.version] == p.bootstrap)
    && RootsStored(d)
    && CacheStored(d)
    && (d.journal.cache.Some? ==>
          && RootJson in d.journal.inventory
          && d.journal.inventory[RootJson].RootDoc?
          && Recorded(d.journal.roots, d.journal.inventory[RootJson].root))
  }

  ghost predicate DiskInv(p: Policy, d: Disk) {
    && Lawful(p, d.journal)
    && Pointer(d)
    && ObjectsStored(d) && d.active in d.objects
    && (Open(d.journal.phase) ==> d.pending)
    && TrustKept(p, d)
  }

  /** The reported unit state is either the sampled one, unset, or a completion logged since. */
  ghost predicate SampleFresh(env: Env, unit: UnitName, sampled: string, since: nat)
    requires unit in env.units
  {
    var u := env.units[unit];
    || u.exit == sampled
    || !RealExit(u.exit)
    || exists i :: since <= i < |env.log| && env.log[i] == Completion(unit, env.boot, u.exit, u.success)
  }

  /** A successful completion of `unit` in `boot`, logged in `from .. until`. */
  ghost predicate Succeeded(log: seq<Completion>, unit: UnitName, boot: string, from: nat, until: nat) {
    exists i :: from <= i < until && i < |log|
                && log[i].unit == unit && log[i].boot == boot && log[i].success
  }

  /** Preflight passed after `prepare` sampled, and the old service stopped after `prepared` did. */
  ghost predicate Barrier(env: Env, h: History, boot: string) {
    && Succeeded(env.log, PreflightUnit, boot, h.preparedAt, h.stoppedAt)
    && Succeeded(env.log, StopUnit, boot, h.stoppedAt, |env.log|)
    && h.quiet
  }

  ghost predicate BarrierInv(env: Env, j: Journal, h: History) {
    && PreflightUnit in env.units && StopUnit in env.units
    && h.preparedAt <= |env.log| && h.stoppedAt <= |env.log| && h.sampledAt <= |env.log|
    && (Open(j.phase) ==> j.tx.Some? && j.tx.value.boot in env.boots)
    && env.boot in env.boots
    && (j.phase == Phase.Prepared && j.tx.value.boot == env.boot ==>
          SampleFresh(env, PreflightUnit, j.tx.value.bridgeExit, h.preparedAt))
    && (j.phase == Phase.Stopping ==>
          Succeeded(env.log, PreflightUnit, j.tx.value.boot, h.preparedAt, h.stoppedAt))
    && (j.phase == Phase.Stopping && j.tx.value.boot == env.boot ==>
          SampleFresh(env, StopUnit, j.tx.value.bridgeExit, h.stoppedAt))
    && (h.flipping ==> j.tx.Some? && Barrier(env, h, j.tx.value.boot))
  }

  /** The journal's stability fields describe a real streak of completed ticks. */
  ghost predicate StreakInv(j: Journal, h: History) {
    j.tx.Some? && j.phase in {Phase.Prepared, Phase.Stopping, Phase.Trial} ==>
      var tx := j.tx.value;
      if tx.stableInvocation.None? then tx.stableSince.None?
      else
        && j.phase == Phase.Trial
        && tx.stableSince.Some? && tx.stableSample.Some?
        && exists k: nat :: Records(tx, h.trial, k)
  }

  ghost predicate Records(tx: Transaction, trial: seq<Observation>, k: nat)
    requires tx.stableInvocation.Some? && tx.stableSince.Some? && tx.stableSample.Some?
  {
    && Streak(tx, trial, k, tx.stableInvocation.value)
    && trial[k].now == tx.stableSince.value
    && trial[k].evidence.value.collectedAt == tx.stableSample.value
  }

  predicate FailedInv(j: Journal, h: History) {
    j.tx.Some? ==>
      var grown := h.failedBase + [j.tx.value.to.digest];
      && |h.failedBase| < FAILED_QUOTA && j.tx.value.to.digest !in h.failedBase
      && (j.phase in {Phase.Prepared, Phase.Stopping, Phase.Trial, Phase.Committed} ==> j.failed == h.failedBase)
      && (j.phase == Phase.RollbackIntent ==> j.failed == grown)
      && (j.failed == h.failedBase || j.failed == grown)
  }

  /** A reported commit names an artifact this host really committed, after the request it reports about. */
  predicate TruthInv(j: Journal, h: History) {
    && (j.phase == Phase.Committed && Owns(j) ==> Commitment(j.installed, |h.accepted|) in h.commits)
    && (forall c | c in h.commits :: c.artifact.sequence <= j.installed.sequence)
    && (j.remote.Some? && j.remote.value.status.phase == UpdatePhase.Committed ==>
          && j.remote.value.target.Some? && j.remote.value.status.targetSequence.Some?
          && Commitment(Artifact(j.remote.value.target.value, j.remote.value.status.targetSequence.value), |h.accepted|) in h.commits)
    && (h.accepting ==>
          && j.remote.Some?
          && j.remote.value.status.phase != UpdatePhase.Committed
          && j.phase in {Phase.Stable, Phase.Committed, Phase.RolledBack, Phase.Prepared, Phase.ManualRecovery}
          && (Terminal(j.phase) ==> j.remote.value.target.None?))
  }

  /** Accepted requests are at least a cooldown apart; the journal remembers the last. */
  predicate AcceptedInv(j: Journal, h: History) {
    && (forall i | 0 <= i < |h.accepted| :: ValidRequest(h.accepted[i].request, h.accepted[i].at))
    && (forall i, k | 0 <= i < k < |h.accepted| ::
          h.accepted[k].at >= h.accepted[i].at + UPDATE_COOLDOWN_SECS)
    && (j.remote.None? <==> h.accepted == [])
    && (j.remote.Some? ==>
          h.accepted[|h.accepted| - 1] == Acceptance(j.remote.value.request, j.remote.value.acceptedAt))
  }

  /** The observation a running trial tick still has to make durable fits the journal it read. */
  ghost predicate HistInv(p: Policy, env: Env, s: State) {
    && BarrierInv(env, s.disk.journal, s.hist)
    && StreakInv(s.disk.journal, s.hist)
    && FailedInv(s.disk.journal, s.hist)
    && TruthInv(s.disk.journal, s.hist)
    && AcceptedInv(s.disk.journal, s.hist)
  }

  ghost predicate Inv(p: Policy, env: Env, s: State) {
    DiskInv(p, s.disk) && HistInv(p, env, s)
  }

  // ---- one command in its host ------------------------------------------------------------------------

  /** What the host promises about its answers: the current boot, and each unit's last completion. */
  predicate HostOk(env: Env, h: Host) {
    && PreflightUnit in env.units && StopUnit in env.units
    && (h.boot.Some? ==> h.boot.value == env.boot)
    && (h.probe.Some? ==>
          && h.probe.value.exit == env.units[PreflightUnit].exit
          && (h.probe.value.result == "success" && h.probe.value.activeState == "active" ==>
                env.units[PreflightUnit].success))
    && (h.stop.Some? ==>
          && h.stop.value.exit == env.units[StopUnit].exit
          && (h.stop.value.result == "success" && h.stop.value.activeState == "inactive" ==>
                env.units[StopUnit].success))
  }

  /** The stop marker is gone and the agent unit has no process left. */
  predicate Quiet(marks: set<Mark>, h: Host) {
    StopMark !in marks && h.agent.Some? && Stopped(h.agent.value, h.cgroup) == Ok(true)
  }

  /** The observation a tick makes, if it gets as far as judging its trial. */
  function Watch(p: Policy, d: Disk, h: Host): Option<Observation> {
    var j := d.journal;
    if Loads(p, d) && !d.latched && h.activeFault.None? && j.phase == Phase.Trial && j.tx.Some?
       && h.boot == Some(j.tx.value.boot) && h.trial.Some?
    then
      var evidence := TrialEvidence(d.active, j.tx.value, h.trial.value);
      if h.clock.Some? then Some(Observation(h.boot.value, h.clock.value.first, evidence, h.trial.value))
      else if evidence.None? then Some(Observation(h.boot.value, 0, None, h.trial.value))
      else None
    else None
  }

  /** The observation whose effect on the streak this tick still has to make durable. */
  function Noting(p: Policy, d: Disk, h: Host): Option<Observation> {
    var seen := Watch(p, d, h);
    if seen.Some? && d.journal.tx.Some?
       && !Judge(d.journal.tx.value, seen.value.evidence, seen.value.now, p).Keep?
    then seen else None
  }

  /** A command starts: an observation that changes nothing is complete, one that does is noted. */
  function Begin(p: Policy, env: Env, s: State, c: Command): State {
    var h := s.hist.(sampledAt := |env.log|, quiet := false, note := None, flipping := false, accepting := false);
    if !c.Reconcile? then s.(hist := h)
    else
      var h1 := h.(quiet := Quiet(if c.boot then {} else s.disk.marks, c.host));
      var seen := Watch(p, s.disk, c.host);
      var note := Noting(p, s.disk, c.host);
      s.(hist := if seen.Some? && note.None? then h1.(trial := h1.trial + [seen.value]) else h1.(note := note))
  }
}
