/**
 * The activation state machine: for each phase, the durable writes one updater process performs,
 * in order, given the disk it finds and the host's answers.
 */
module Activate {
  import opened Options
  import opened LocalPolicy
  import opened Journals
  import opened Disks
  import opened Hosts

  const BRIDGE_TIMEOUT_MS := 30000
  const ROLLBACK_TIMEOUT_MS := 60000

  /** The guard of `prepare`, up to its look at the `active` pointer. */
  predicate MayPrepare(j: Journal, p: Policy, to: Artifact) {
    && Terminal(j.phase)
    && to.sequence > j.installed.sequence
    && to.digest !in j.failed
    && |j.failed| < FAILED_QUOTA
    && j.installed.sequence >= p.minimumSequence
    && j.installed.sequence >= j.hardFloor
  }

  function Opened(j: Journal, h: Host, to: Artifact): Journal
    requires h.agent.Some? && h.probe.Some? && h.boot.Some? && h.clock.Some?
  {
    Bind(j, to).(
      phase := Phase.Prepared,
      tx := Some(Transaction(
        j.installed, to, h.boot.value, h.clock.value.first + BRIDGE_TIMEOUT_MS,
        h.agent.value.invocation, h.probe.value.exit, false, false, None, None, None)))
  }

  function PreparePlan(d: Disk, j: Journal, h: Host, p: Policy, to: Artifact): Plan {
    if !MayPrepare(j, p, to) then Stop(j, PolicyRejected)
    else if h.activeFault.Some? then Stop(j, h.activeFault.value)
    else if d.active != j.installed.digest then Stop(j, PolicyRejected)
    else
      var first := [Step(PointCandidate(to.digest), j), Step(CreatePending, j)];
      if h.agent.None? || h.probe.None? then Plan(first, j, Failed(Failure))
      else if h.boot.None? || h.clock.None? then Plan(first, Bind(j, to), Failed(Failure))
      else
        var prepared := Opened(j, h, to);
        Plan(first + [Save(prepared), Step(PutMark(PreflightMark), prepared)], prepared, Finished)
  }

  function Abandoned(j: Journal): Journal {
    j.(phase := Phase.RolledBack)
  }

  /** A new completion of a oneshot unit since its timestamp was sampled. */
  predicate Completed(unit: Props, sampled: string) {
    unit.exit != sampled && RealExit(unit.exit)
  }

  function PreparedPlan(d: Disk, j: Journal, h: Host): Plan
    requires j.tx.Some?
  {
    var tx := j.tx.value;
    if h.probe.None? || h.boot.None? then Stop(j, Failure)
    else if tx.boot != h.boot.value then
      if d.active != tx.from.digest then Stop(j, Recovery)
      else Plan([Save(Abandoned(j))], Abandoned(j), Finished)
    else
      var probe := h.probe.value;
      var done := Completed(probe, tx.bridgeExit);
      if done && probe.result == "success" && probe.activeState == "active" then
        if h.stop.None? then Stop(j, Failure)
        else
          var sampled := j.(tx := Some(tx.(bridgeExit := h.stop.value.exit)));
          if h.clock.None? then Stop(sampled, Failure)
          else
            var stopping := sampled.(
              phase := Phase.Stopping,
              tx := Some(sampled.tx.value.(deadline := h.clock.value.first + BRIDGE_TIMEOUT_MS)));
            Plan([Save(stopping), Step(PutMark(StopMark), stopping)], stopping, Finished)
      else if !done && h.clock.None? then Stop(j, Failure)
      else if done || h.clock.value.first > tx.deadline then
        var rejected := Abandoned(j.(failed := j.failed + [tx.to.digest]));
        Plan([Save(rejected)], rejected, Finished)
      else if PreflightMark !in d.marks && probe.activeState !in {"activating", "deactivating"} then
        Plan([Step(PutMark(PreflightMark), j)], j, Finished)
      else Pass(j)
  }

  predicate StopAcknowledged(d: Disk, tx: Transaction, stop: Props) {
    Completed(stop, tx.bridgeExit) && stop.activeState == "inactive" && stop.result == "success"
    && StopMark !in d.marks
  }

  function StoppingPlan(d: Disk, j: Journal, h: Host, p: Policy): Plan
    requires j.tx.Some?
  {
    var tx := j.tx.value;
    if h.boot.None? then Stop(j, Failure)
    else if tx.boot != h.boot.value then
      if d.active != tx.from.digest then Stop(j, Recovery)
      else Plan([Save(Abandoned(j))], Abandoned(j), Finished)
    else if h.agent.None? || h.stop.None? then Stop(j, Failure)
    else
      var stop := h.stop.value;
      var quiet := if StopAcknowledged(d, tx, stop) then Stopped(h.agent.value, h.cgroup) else Ok(false);
      if quiet.Err? then Stop(j, quiet.error)
      else if h.clock.None? then Stop(j, Failure)
      else if quiet.value then
        var trial := j.(
          phase := Phase.Trial,
          tx := Some(tx.(deadline := h.clock.value.first + p.trialSeconds * 1000)));
        Plan([Save(trial), Step(PointActive(tx.to.digest), trial), Step(PutMark(RestartMark), trial)],
             trial, Finished)
      else if h.clock.value.first > tx.deadline then Stop(j, Recovery)
      else if stop.activeState !in {"active", "activating", "deactivating"} && StopMark !in d.marks then
        Plan([Step(PutMark(StopMark), j)], j, Finished)
      else Pass(j)
  }

  /** The second half of `rollback`: restore `from`, once the intent is durable. */
  function RestorePlan(d: Disk, j: Journal, h: Host): Plan
    requires j.tx.Some?
  {
    var tx := j.tx.value;
    if tx.from.digest !in d.objects then Stop(j, Recovery)
    else if h.restore.None? then Stop(j, Failure)
    else if Health(d.active, h.restore.value, tx.from.digest).Some? then
      Plan([Save(Abandoned(j))], Abandoned(j), Finished)
    else if tx.recoveryRequested && h.boot.None? then Stop(j, Failure)
    else if !tx.recoveryRequested || tx.boot != h.boot.value then
      var ask := [Step(PointActive(tx.from.digest), j), Step(PutMark(RestartMark), j)];
      var asked := tx.(recoveryRequested := true, boot := if h.boot.Some? then h.boot.value else tx.boot);
      if h.boot.None? || h.clock.None? then Plan(ask, j.(tx := Some(asked)), Failed(Failure))
      else
        var requested := j.(tx := Some(asked.(deadline := h.clock.value.fourth + ROLLBACK_TIMEOUT_MS)));
        Plan(ask + [Save(requested)], requested, Finished)
    else if h.clock.None? then Stop(j, Failure)
    else if h.clock.value.fourth > tx.deadline then Stop(j, Recovery)
    else Pass(j)
  }

  function RollbackPlan(d: Disk, j: Journal, h: Host): Plan
    requires j.tx.Some?
  {
    var tx := j.tx.value;
    if tx.from.sequence < j.hardFloor then Stop(j, Recovery)
    else if j.phase == Phase.RollbackIntent then RestorePlan(d, j, h)
    else
      var consumed := j.(tx := Some(tx.(rollbackConsumed := true)));
      if h.clock.None? then Stop(consumed, Failure)
      else
        var intent := Intent(j, h.clock.value.third);
        Before([Save(intent)], RestorePlan(d, intent, h))
  }

  function Intent(j: Journal, now: nat): Journal
    requires j.tx.Some?
  {
    var tx := j.tx.value;
    j.(phase := Phase.RollbackIntent,
       failed := j.failed + [tx.to.digest],
       tx := Some(tx.(rollbackConsumed := true, deadline := now + ROLLBACK_TIMEOUT_MS)))
  }

  // ---- trial --------------------------------------------------------------------------------------

  /** The evidence a trial tick believes: healthy for `to`, under a new invocation. */
  function TrialEvidence(active: Digest, tx: Transaction, s: Sight): Option<Evidence> {
    var e := Health(active, s, tx.to.digest);
    if e.Some? && e.value.invocation != tx.oldInvocation then e else None
  }

  datatype Verdict = Keep | Restart(tx: Transaction) | Forget(tx: Transaction) | Commit

  predicate Elapsed(now: nat, since: nat, span: nat) {
    now >= since && now - since >= span
  }

  /** What the evidence of one tick does to the stability streak. */
  function Judge(tx: Transaction, evidence: Option<Evidence>, now: nat, p: Policy): Verdict {
    match evidence
    case Some(e) =>
      if tx.stableInvocation != Some(e.invocation) then
        Restart(tx.(stableInvocation := Some(e.invocation), stableSince := Some(now),
                    stableSample := Some(e.collectedAt)))
      else if tx.stableSince.Some? && Elapsed(now, tx.stableSince.value, p.stabilitySeconds * 1000)
              && tx.stableSample.Some? && Elapsed(e.collectedAt, tx.stableSample.value, p.stabilitySeconds * 1000)
        then Commit
      else Keep
    case None =>
      if tx.stableSince.Some? then
        Forget(tx.(stableSince := None, stableSample := None, stableInvocation := None))
      else Keep
  }

  /** The journal after the verdict, and whether it has to be saved. */
  function Judged(j: Journal, v: Verdict): Journal
    requires j.tx.Some?
  {
    match v
    case Keep => j
    case Restart(tx) => j.(tx := Some(tx))
    case Forget(tx) => j.(tx := Some(tx))
    case Commit => j.(installed := j.tx.value.to, phase := Phase.Committed)
  }

  function TrialPlan(d: Disk, j: Journal, h: Host, p: Policy): Plan
    requires j.tx.Some? && j.phase == Phase.Trial
  {
    var tx := j.tx.value;
    if h.boot.None? then Stop(j, Failure)
    else if tx.boot != h.boot.value then RollbackPlan(d, j, h)
    else if h.trial.None? then Stop(j, Failure)
    else
      var evidence := TrialEvidence(d.active, tx, h.trial.value);
      if h.clock.None? then
        // A clock that cannot be read starts no streak and ends none by committing.
        if evidence.Some? then Stop(UntimedJudged(j, evidence.value), Failure)
        else
          var v := Judge(tx, None, 0, p);
          Plan(if v.Keep? then [] else [Save(Judged(j, v))], Judged(j, v), Failed(Failure))
      else
        var v := Judge(tx, evidence, h.clock.value.first, p);
        var judged := Judged(j, v);
        var saved := if v.Keep? then [] else [Save(judged)];
        if v.Commit? || h.clock.value.second <= tx.deadline then Plan(saved, judged, Finished)
        else Before(saved, RollbackPlan(d, judged, h))
  }

  /** The invocation is recorded in memory before the clock is read. */
  function UntimedJudged(j: Journal, e: Evidence): Journal
    requires j.tx.Some?
  {
    var tx := j.tx.value;
    if tx.stableInvocation != Some(e.invocation)
    then j.(tx := Some(tx.(stableInvocation := Some(e.invocation)))) else j
  }

  function ReconcilePlan(d: Disk, j: Journal, h: Host, p: Policy): Plan {
    if j.phase == Phase.ManualRecovery then Stop(j, Recovery)
    else if h.activeFault.Some? then Stop(j, h.activeFault.value)
    else if Terminal(j.phase) then
      if d.active != j.installed.digest then Stop(j, Recovery) else Pass(j)
    else if j.tx.None? || (d.active != j.tx.value.from.digest && d.active != j.tx.value.to.digest) then
      Stop(j, Recovery)
    else if j.phase == Phase.Prepared then PreparedPlan(d, j, h)
    else if j.phase == Phase.Stopping then StoppingPlan(d, j, h, p)
    else if j.phase == Phase.Trial then TrialPlan(d, j, h, p)
    else RollbackPlan(d, j, h)
  }
}
