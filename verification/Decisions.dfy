/**
 * What one process decides, told from the disk it finds and the answers of its host alone: for each phase,
 * exactly when the transaction moves, waits, is given up or needs an operator, and what is then written.
 */
module Decisions {
  import opened Options
  import opened AgentUpdate
  import opened LocalPolicy
  import opened Trust
  import opened Journals
  import opened Disks
  import opened Hosts
  import opened Activate
  import opened Download
  import opened Runtime

  // ---- outcomes ----------------------------------------------------------------------------------------

  predicate Reaches(plan: Plan, phase: Phase) {
    plan.end.Finished? && plan.mem.phase == phase
  }

  predicate Waits(plan: Plan, j: Journal) {
    plan.end.Finished? && plan.mem == j
  }

  predicate NeedsOperator(plan: Plan) {
    plan.end == End.Failed(Recovery)
  }

  /** Nothing is written, and the error is the host's or calls for an operator. */
  predicate GivesUp(plan: Plan) {
    plan.end.Failed? ==> plan.items == [] && plan.end.error in {Recovery, Failure}
  }

  /** The oneshot unit has finished since its exit was sampled. */
  predicate FinishedSince(unit: Props, sampled: string) {
    unit.exit != sampled && unit.exit != "" && unit.exit != "0"
  }

  predicate Elsewhere(h: Host, boot: string) {
    h.boot.Some? && h.boot.value != boot
  }

  // ---- prepared ------------------------------------------------------------------------------------------

  /**
   * A preparation moves on exactly when the candidate's preflight has passed in this boot; it is given up
   * exactly after a reboot, a failed preflight or its deadline, and waits for as long as none of these holds.
   */
  lemma PreparedOutcomes(d: Disk, j: Journal, h: Host)
    requires j.phase == Phase.Prepared && j.tx.Some?
    ensures var plan, tx := PreparedPlan(d, j, h), j.tx.value;
            var here := h.probe.Some? && h.boot == Some(tx.boot);
            var away := h.probe.Some? && Elsewhere(h, tx.boot);
            var done := here && FinishedSince(h.probe.value, tx.bridgeExit);
            var passed := done && h.probe.value.result == "success" && h.probe.value.activeState == "active";
            var late := here && !done && h.clock.Some? && h.clock.value.first > tx.deadline;
            && (Reaches(plan, Phase.Stopping) <==> passed && h.stop.Some? && h.clock.Some?)
            && (Reaches(plan, Phase.RolledBack) <==> (away && d.active == tx.from.digest) || (done && !passed) || late)
            && (Waits(plan, j) <==> here && !done && h.clock.Some? && !late)
            && (NeedsOperator(plan) <==> away && d.active != tx.from.digest)
            && GivesUp(plan)
            && (Reaches(plan, Phase.Stopping) ==>
                  && plan.mem == j.(phase := Phase.Stopping,
                                    tx := Some(tx.(bridgeExit := h.stop.value.exit, deadline := h.clock.value.first + 30000)))
                  && Writes(plan.items) == [SaveJournal(plan.mem), PutMark(StopMark)])
            && (Reaches(plan, Phase.RolledBack) ==>
                  && plan.mem == j.(phase := Phase.RolledBack, failed := if away then j.failed else j.failed + [tx.to.digest])
                  && Writes(plan.items) == [SaveJournal(plan.mem)])
            && (Waits(plan, j) ==>
                  Writes(plan.items)
                  == if PreflightMark in d.marks || h.probe.value.activeState == "activating"
                        || h.probe.value.activeState == "deactivating" then [] else [PutMark(PreflightMark)])
  {
  }

  // ---- stopping ------------------------------------------------------------------------------------------

  /** The stop was taken up and has succeeded since it was asked for. */
  predicate StopTaken(d: Disk, tx: Transaction, h: Host) {
    && h.boot == Some(tx.boot) && h.agent.Some? && h.stop.Some?
    && FinishedSince(h.stop.value, tx.bridgeExit)
    && h.stop.value.activeState == "inactive" && h.stop.value.result == "success"
    && StopMark !in d.marks
  }

  /** The agent is down in a control group of its own, about which the host cannot or must not be asked. */
  ghost predicate Opaque(h: Host) {
    && h.agent.Some? && h.agent.value.activeState == "inactive" && h.agent.value.mainPid == "0"
    && h.agent.value.controlGroup != ""
    && (!SystemService(h.agent.value.controlGroup) || h.cgroup.Unreadable?)
  }

  /**
   * A stop moves on to the trial exactly when it succeeded and nothing of the agent is left; it is abandoned
   * exactly after a reboot, and calls for an operator exactly after its deadline or in a foreign control group.
   */
  lemma StoppingOutcomes(d: Disk, j: Journal, h: Host, p: Policy)
    requires j.phase == Phase.Stopping && j.tx.Some?
    ensures var plan, tx := StoppingPlan(d, j, h, p), j.tx.value;
            var asked := h.boot == Some(tx.boot) && h.agent.Some? && h.stop.Some?;
            var taken := StopTaken(d, tx, h);
            var gone := taken && NobodyLeft(h.agent.value, h.cgroup);
            var foreign := taken && Opaque(h) && !SystemService(h.agent.value.controlGroup);
            var waiting := asked && !gone && !(taken && Opaque(h)) && h.clock.Some?;
            && (Reaches(plan, Phase.Trial) <==> gone && h.clock.Some?)
            && (Reaches(plan, Phase.RolledBack) <==> Elsewhere(h, tx.boot) && d.active == tx.from.digest)
            && (Waits(plan, j) <==> waiting && h.clock.value.first <= tx.deadline)
            && (NeedsOperator(plan) <==>
                  || (Elsewhere(h, tx.boot) && d.active != tx.from.digest) || foreign
                  || (waiting && h.clock.value.first > tx.deadline))
            && GivesUp(plan)
            && (Reaches(plan, Phase.Trial) ==>
                  && plan.mem == j.(phase := Phase.Trial, tx := Some(tx.(deadline := h.clock.value.first + p.trialSeconds * 1000)))
                  && Writes(plan.items) == [SaveJournal(plan.mem), PointActive(tx.to.digest), PutMark(RestartMark)])
            && (Reaches(plan, Phase.RolledBack) ==>
                  plan.mem == j.(phase := Phase.RolledBack) && Writes(plan.items) == [SaveJournal(plan.mem)])
            && (Waits(plan, j) ==>
                  Writes(plan.items)
                  == if StopMark in d.marks || h.stop.value.activeState == "active" || h.stop.value.activeState == "activating"
                        || h.stop.value.activeState == "deactivating" then [] else [PutMark(StopMark)])
  {
    if h.agent.Some? {
      StoppedIff(h.agent.value, h.cgroup);
    }
    hide Stopped, NobodyLeft, SystemService;
    if h.agent.Some? {
      Undecided(h);
    }
  }

  lemma Undecided(h: Host)
    requires h.agent.Some?
    ensures Stopped(h.agent.value, h.cgroup).Err? <==> Opaque(h)
    ensures Opaque(h) ==>
              Stopped(h.agent.value, h.cgroup) == Err(if SystemService(h.agent.value.controlGroup) then Failure else Recovery)
  {
    StoppedIff(h.agent.value, h.cgroup);
  }

  // ---- trial ---------------------------------------------------------------------------------------------

  /** The agent runs `expected` behind `active`, and its own fresh report says so. */
  predicate Healthy(active: Digest, s: Sight, expected: Digest) {
    active == expected && s.file.Some? && Convinces(s.file.value, s, expected)
  }

  /** A tick in the trial's own boot sees the candidate healthy under a new invocation. */
  predicate Believes(d: Disk, tx: Transaction, h: Host) {
    && h.boot == Some(tx.boot) && h.trial.Some?
    && Healthy(d.active, h.trial.value, tx.to.digest) && h.trial.value.file.value.invocation != tx.oldInvocation
  }

  /** The invocation seen is the one whose streak runs, for long enough by the boot clock and by its own samples. */
  predicate Stable(tx: Transaction, e: Evidence, now: nat, p: Policy) {
    && tx.stableInvocation == Some(e.invocation) && tx.stableSince.Some? && tx.stableSample.Some?
    && now >= tx.stableSince.value + p.stabilitySeconds * 1000
    && e.collectedAt >= tx.stableSample.value + p.stabilitySeconds * 1000
  }

  /** The journal after a tick that does not commit: a new streak, a broken one, or no change. */
  function Streaked(d: Disk, j: Journal, h: Host): Journal
    requires j.tx.Some? && h.clock.Some?
  {
    var tx := j.tx.value;
    if Believes(d, tx, h) then
      var e := h.trial.value.file.value;
      if tx.stableInvocation == Some(e.invocation) then j
      else j.(tx := Some(tx.(stableInvocation := Some(e.invocation), stableSince := Some(h.clock.value.first),
                             stableSample := Some(e.collectedAt))))
    else if tx.stableSince.None? then j
    else j.(tx := Some(tx.(stableInvocation := None, stableSince := None, stableSample := None)))
  }

  lemma HealthyIff(active: Digest, s: Sight, expected: Digest)
    ensures Health(active, s, expected) == if Healthy(active, s, expected) then s.file else None
  {
  }

  lemma EvidenceIff(d: Disk, tx: Transaction, h: Host)
    requires h.boot == Some(tx.boot) && h.trial.Some?
    ensures TrialEvidence(d.active, tx, h.trial.value) == if Believes(d, tx, h) then h.trial.value.file else None
  {
    HealthyIff(d.active, h.trial.value, tx.to.digest);
    hide Health, Convinces;
  }

  /**
   * A trial commits exactly when this tick believes in a stable candidate; otherwise it records how the streak
   * stands, and is rolled back exactly after its deadline or a reboot.
   */
  lemma TrialOutcomes(d: Disk, j: Journal, h: Host, p: Policy)
    requires j.phase == Phase.Trial && j.tx.Some?
    ensures var plan, tx := TrialPlan(d, j, h, p), j.tx.value;
            && (Elsewhere(h, tx.boot) ==> plan == RollbackPlan(d, j, h))
            && (h.boot.None? || (!Elsewhere(h, tx.boot) && h.trial.None?) ==> plan == Plan([], j, End.Failed(Failure)))
    ensures h.boot == Some(j.tx.value.boot) && h.trial.Some? && h.clock.Some? ==>
              var plan, tx := TrialPlan(d, j, h, p), j.tx.value; var now, next := h.clock.value.first, Streaked(d, j, h);
              var saved := if next == j then [] else [Save(next)];
              var commits := Believes(d, tx, h) && Stable(tx, h.trial.value.file.value, now, p);
              var late := h.clock.value.second > tx.deadline;
              && (commits ==>
                    && plan.end.Finished? && plan.mem == j.(phase := Phase.Committed, installed := tx.to)
                    && Writes(plan.items) == [SaveJournal(plan.mem)])
              && (!commits && !late ==> plan == Plan(saved, next, Finished))
              && (!commits && late ==>
                    var rest := RollbackPlan(d, next, h); plan == Plan(saved + rest.items, rest.mem, rest.end))
    ensures h.boot == Some(j.tx.value.boot) && h.trial.Some? && h.clock.None? ==>
              TrialPlan(d, j, h, p).end.Failed? && TrialPlan(d, j, h, p).mem.phase == Phase.Trial
  {
    if h.boot == Some(j.tx.value.boot) && h.trial.Some? {
      EvidenceIff(d, j.tx.value, h);
      hide TrialEvidence, RollbackPlan, Convinces, Healthy;
      if h.clock.Some? {
        TimedOutcomes(d, j, h, p);
      }
    }
    hide TrialEvidence, RollbackPlan, Believes;
  }

  lemma TimedOutcomes(d: Disk, j: Journal, h: Host, p: Policy)
    requires j.phase == Phase.Trial && j.tx.Some? && h.boot == Some(j.tx.value.boot) && h.trial.Some? && h.clock.Some?
    ensures var v := Judge(j.tx.value, TrialEvidence(d.active, j.tx.value, h.trial.value), h.clock.value.first, p);
            && (v.Commit? <==> Believes(d, j.tx.value, h) && Stable(j.tx.value, h.trial.value.file.value, h.clock.value.first, p))
            && (!v.Commit? ==> Judged(j, v) == Streaked(d, j, h) && (v.Keep? <==> Streaked(d, j, h) == j))
  {
    EvidenceIff(d, j.tx.value, h);
    hide TrialEvidence, Healthy;
  }

  // ---- rollback ------------------------------------------------------------------------------------------

  /**
   * A restore is finished exactly when the old code is healthy behind `active`. Until then it is asked for
   * once in each boot, waits, and calls for an operator exactly after its deadline or when the code is gone.
   */
  lemma RestoreOutcomes(d: Disk, j: Journal, h: Host)
    requires j.tx.Some? && j.phase == Phase.RollbackIntent
    ensures var plan, tx := RestorePlan(d, j, h), j.tx.value; var from := tx.from.digest;
            var looked := from in d.objects && h.restore.Some?;
            var sick := looked && !Healthy(d.active, h.restore.value, from);
            var known := tx.recoveryRequested && h.boot == Some(tx.boot);
            var asks := sick && !known && (tx.recoveryRequested ==> h.boot.Some?);
            && (Reaches(plan, Phase.RolledBack) <==> looked && !sick)
            && (Reaches(plan, Phase.RollbackIntent) <==>
                  h.clock.Some? && ((asks && h.boot.Some?) || (sick && known && h.clock.value.fourth <= tx.deadline)))
            && (NeedsOperator(plan) <==>
                  from !in d.objects || (sick && known && h.clock.Some? && h.clock.value.fourth > tx.deadline))
            && (Reaches(plan, Phase.RolledBack) ==>
                  plan.mem == j.(phase := Phase.RolledBack) && Writes(plan.items) == [SaveJournal(plan.mem)])
            && (asks ==> Writes(plan.items)[..|plan.items| - (if plan.end.Finished? then 1 else 0)]
                         == [PointActive(from), PutMark(RestartMark)])
            && (Reaches(plan, Phase.RollbackIntent) && asks ==>
                  && plan.mem == j.(tx := Some(tx.(recoveryRequested := true, boot := h.boot.value,
                                                   deadline := h.clock.value.fourth + 60000)))
                  && Writes(plan.items) == [PointActive(from), PutMark(RestartMark), SaveJournal(plan.mem)])
            && (!asks && !Reaches(plan, Phase.RolledBack) ==> plan.items == [] && plan.mem == j)
  {
    if h.restore.Some? {
      HealthyIff(d.active, h.restore.value, j.tx.value.from.digest);
    }
    hide Health, Healthy;
  }

  /** A rollback below the floor is refused; otherwise the intent comes first, with the target remembered as failed. */
  lemma RollbackOutcomes(d: Disk, j: Journal, h: Host)
    requires j.tx.Some?
    ensures var plan, tx := RollbackPlan(d, j, h), j.tx.value;
            if tx.from.sequence < j.hardFloor then plan == Plan([], j, End.Failed(Recovery))
            else if j.phase == Phase.RollbackIntent then plan == RestorePlan(d, j, h)
            else if h.clock.None? then plan == Plan([], j.(tx := Some(tx.(rollbackConsumed := true))), End.Failed(Failure))
            else
              var intent := j.(phase := Phase.RollbackIntent, failed := j.failed + [tx.to.digest],
                               tx := Some(tx.(rollbackConsumed := true, deadline := h.clock.value.third + 60000)));
              var rest := RestorePlan(d, intent, h);
              plan == Plan([Save(intent)] + rest.items, rest.mem, rest.end)
  {
    hide RestorePlan;
  }

  // ---- preparing and reconciling --------------------------------------------------------------------------

  /** Between transactions, newer, never failed, room to remember a failure, and above every floor. */
  predicate Triable(j: Journal, p: Policy, to: Artifact) {
    && (j.phase == Phase.Stable || j.phase == Phase.Committed || j.phase == Phase.RolledBack)
    && j.installed.sequence < to.sequence
    && (forall i | 0 <= i < |j.failed| :: j.failed[i] != to.digest) && |j.failed| < 64
    && p.minimumSequence <= j.installed.sequence && j.hardFloor <= j.installed.sequence
  }

  /** The stored request now names its target, if it was still downloading. */
  function Bound(remote: Option<RemoteUpdate>, to: Artifact): Option<RemoteUpdate> {
    if remote.Some? && remote.value.target.None? && remote.value.status.phase == Downloading then
      Some(RemoteUpdate(remote.value.request, remote.value.acceptedAt, Some(to.digest),
                        remote.value.status.(targetSequence := Some(to.sequence))))
    else remote
  }

  /**
   * A release is prepared exactly when it may be tried on what is installed and running: its pointer and the
   * timer's flag first, then the journal, then the preflight. What may not be tried leaves no trace.
   */
  lemma PrepareOutcomes(d: Disk, j: Journal, h: Host, p: Policy, to: Artifact)
    ensures var plan := PreparePlan(d, j, h, p, to);
            var allowed := Triable(j, p, to) && h.activeFault.None? && d.active == j.installed.digest;
            var answered := h.agent.Some? && h.probe.Some? && h.boot.Some? && h.clock.Some?;
            && (plan.end.Finished? <==> allowed && answered)
            && (!allowed ==> plan.items == [] && plan.mem == j && plan.end.Failed?
                             && plan.end.error == (if Triable(j, p, to) && h.activeFault.Some? then h.activeFault.value
                                                   else PolicyRejected))
            && (allowed && !answered ==>
                  && Writes(plan.items) == [PointCandidate(to.digest), CreatePending] && plan.end == End.Failed(Failure)
                  && plan.mem.(remote := j.remote) == j)
            && (plan.end.Finished? ==>
                  && plan.mem == j.(phase := Phase.Prepared, remote := Bound(j.remote, to),
                                    tx := Some(Transaction(j.installed, to, h.boot.value, h.clock.value.first + 30000,
                                                           h.agent.value.invocation, h.probe.value.exit,
                                                           false, false, None, None, None)))
                  && Writes(plan.items)
                     == [PointCandidate(to.digest), CreatePending, SaveJournal(plan.mem), PutMark(PreflightMark)])
  {
  }

  /** What a reconcile looks at before its phase: the operator, the pointer, and whether a transaction is open. */
  lemma ReconcileOutcomes(d: Disk, j: Journal, h: Host, p: Policy)
    ensures var plan := ReconcilePlan(d, j, h, p);
            var manual, faulty := j.phase == Phase.ManualRecovery, h.activeFault.Some?;
            var settled := j.phase == Phase.Stable || j.phase == Phase.Committed || j.phase == Phase.RolledBack;
            var known := if settled then d.active == j.installed.digest
                         else j.tx.Some? && (d.active == j.tx.value.from.digest || d.active == j.tx.value.to.digest);
            && (manual ==> plan == Plan([], j, End.Failed(Recovery)))
            && (!manual && faulty ==> plan == Plan([], j, End.Failed(h.activeFault.value)))
            && (!manual && !faulty && !known ==> plan == Plan([], j, End.Failed(Recovery)))
            && (!manual && !faulty && known && settled ==> plan == Plan([], j, Finished))
            && (!manual && !faulty && known ==>
                  match j.phase
                  case Prepared => plan == PreparedPlan(d, j, h)
                  case Stopping => plan == StoppingPlan(d, j, h, p)
                  case Trial => plan == TrialPlan(d, j, h, p)
                  case RollbackIntent => plan == RollbackPlan(d, j, h)
                  case _ => plan.items == [])
  {
    hide PreparedPlan, StoppingPlan, TrialPlan, RollbackPlan;
  }

  // ---- requests and their reports ---------------------------------------------------------------------------

  /** A request this host may act on now. */
  predicate Timely(r: Request, now: nat) {
    && |r.id| == 32 && (forall i | 0 <= i < 32 :: r.id[i] in "0123456789abcdef")
    && now < r.expiresAt <= r.issuedAt + 60 && r.issuedAt < r.expiresAt
    && r.issuedAt <= SaturatingAdd(now, 5) && r.expiresAt < 0x20_0000_0000_0000
  }

  /** Another request than the last, and the cooldown has passed since. */
  predicate Due(j: Journal, r: Request, now: nat) {
    j.remote.Some? ==>
      j.remote.value.request.id != r.id && now >= SaturatingAdd(j.remote.value.acceptedAt, 300)
  }

  predicate Between(phase: Phase) {
    phase == Phase.Stable || phase == Phase.Committed || phase == Phase.RolledBack
  }

  /** Exactly which requests are accepted, and what is stored of one and reported at once. */
  lemma AcceptOutcomes(p: Policy, j: Journal, r: Request, now: nat)
    ensures var a := Accept(p, j, r, now);
            && (a.Ok? <==> p.allowRemote && Timely(r, now) && Between(j.phase) && Due(j, r, now))
            && (a.Err? ==> a.error == (if p.allowRemote && Timely(r, now) && !Between(j.phase) then Error.Busy else PolicyRejected))
            && (a.Ok? ==>
                  Snapshot(a.value)
                  == j.(remote := Some(RemoteUpdate(r, now, None,
                          Status(Ready, Downloading, Some(r.id), now, SaturatingAdd(now, 300), Some(j.installed.sequence),
                                 None, Some(j.channel), None)))))
  {
    HexDigits(r.id);
  }

  /** The transaction tries what the request is bound to. */
  predicate Serves(j: Journal, u: RemoteUpdate) {
    && j.tx.Some? && u.target == Some(j.tx.value.to.digest)
    && u.status.targetSequence == Some(j.tx.value.to.sequence)
  }

  /** What a stored report says of the phase of its own transaction. */
  predicate Tells(phase: Phase, told: UpdatePhase) {
    match phase
    case Prepared => told == UpdatePhase.Prepared
    case Stopping => told == UpdatePhase.Stopping
    case Trial => told == UpdatePhase.Trial
    case RollbackIntent => told == UpdatePhase.RollingBack
    case Committed => told == UpdatePhase.Committed
    case RolledBack => told == UpdatePhase.RolledBack
    case ManualRecovery => told == UpdatePhase.ManualRecovery
    case Stable => true
  }

  /** Every stored journal reports what is installed, when the next request is due, and its own transaction truly. */
  lemma StoredReport(j: Journal)
    ensures var s := Snapshot(j);
            && s.(remote := None) == j.(remote := None) && (s.remote.Some? <==> j.remote.Some?)
            && (j.remote.Some? ==>
                  var u, was := s.remote.value, j.remote.value;
                  && u == was.(status := u.status)
                  && u.status.installedSequence == Some(j.installed.sequence) && u.status.channel == Some(j.channel)
                  && u.status.nextRequestAt == SaturatingAdd(was.acceptedAt, 300)
                  && (Serves(j, was) ==> Tells(j.phase, u.status.phase))
                  && (!Serves(j, was) || j.phase == Phase.Stable ==> u.status.phase == was.status.phase)
                  && u.status == was.status.(installedSequence := u.status.installedSequence, channel := u.status.channel,
                                             nextRequestAt := u.status.nextRequestAt, phase := u.status.phase))
  {
  }

  /** The request is still waiting for its download to end. */
  predicate StillWaiting(j: Journal) {
    j.remote.Some? && j.remote.value.target.None? && j.remote.value.status.phase == Downloading
  }

  /** The same journal with another report. */
  function Reporting(j: Journal, s: Status): Journal
    requires j.remote.Some?
  {
    j.(remote := Some(RemoteUpdate(j.remote.value.request, j.remote.value.acceptedAt, j.remote.value.target, s)))
  }

  /** How a download that was cut off, found nothing newer, or ended its remote run is put down. */
  lemma ReportOutcomes(j: Journal, failed: bool)
    ensures RecoverDownload(j)
            == if Between(j.phase) && StillWaiting(j)
               then Reporting(j, j.remote.value.status.(phase := UpdatePhase.Failed, reason := Some(UpdateFailed))) else j
    ensures MarkUpToDate(j)
            == if StillWaiting(j) then Reporting(j, j.remote.value.status.(phase := UpToDate)) else j
    ensures var r := Reported(j, failed);
            && (j.remote.None? ==> r == j)
            && (j.remote.Some? ==>
                  var was := j.remote.value;
                  r == Reporting(j, if failed then was.status.(phase := UpdatePhase.Failed, reason := Some(UpdateFailed))
                                     else was.status.(phase := if was.target.None? then UpToDate else was.status.phase)))
  {
  }

  // ---- commands ---------------------------------------------------------------------------------------------

  /** Exactly when an unattended reconcile leaves everything as it is, and when it fails at the gate. */
  lemma GateOutcomes(p: Policy, d: Disk, fault: Option<Error>)
    ensures var g, j := IdleGate(p, d, fault), d.journal; var looks := d.latched || !p.enabled;
            var from := j.tx.Some? && !Between(j.phase) && j.hardFloor <= j.tx.value.from.sequence
                        && d.active == j.tx.value.from.digest;
            && (g.Err? <==> looks && fault.Some?) && (g.Err? ==> Some(g.error) == fault)
            && (g == Ok(Gate.Idle) <==>
                  looks && fault.None?
                  && (if d.latched then d.active == j.installed.digest || from
                      else Between(j.phase) && d.active == j.installed.digest))
  {
  }

  /** Exactly when a time floor is lowered, and to what. */
  lemma ResetOutcomes(confirmed: bool, terminal: bool, latched: bool, timeHigh: nat, now: nat)
    ensures var r := PlanReset(confirmed, terminal, latched, timeHigh, now);
            && (r == Ok(Lowered(timeHigh, now)) <==> confirmed && terminal && !latched && timeHigh > SaturatingAdd(now, 5))
            && (r == Ok(Unchanged) <==> confirmed && terminal && !latched && timeHigh <= SaturatingAdd(now, 5))
            && (r.Err? ==> r.error == (if !confirmed then PolicyRejected else if latched then Recovery else Error.Busy))
  {
  }

  predicate Among(items: seq<Item>, allowed: set<Write>) {
    forall i | 0 <= i < |items| :: items[i].write in allowed && (items[i].fault.Returning? || items[i].fault.Ignored?)
  }

  lemma {:induction false} ExecutedAmong(items: seq<Item>, io: seq<Io>, allowed: set<Write>)
    requires Among(items, allowed)
    ensures forall w | w in Execute(items, io).writes :: w in allowed
    decreases |io|
  {
    if items != [] && io != [] {
      ExecutedAmong(items[1..], io[1..], allowed);
    }
  }

  /** What a host that is paused, latched or cannot load its journal still lets a command do. */
  function Allowed(p: Policy, d: Disk, c: Command): set<Write> {
    if !p.enabled && (c.Fetching? || c.Upgrade? || c.Remote?) then {}
    else if !Loads(p, d) then {RequireRecovery}
    else if c.Reconcile? || c.ShowStatus? then {ClearMarks, RemovePending}
    else {}
  }

  /**
   * A paused host fetches, applies and accepts nothing; one that cannot load its journal only calls for an
   * operator; one that has called for an operator only clears markers and the timer's flag.
   */
  lemma RefusedCommands(p: Policy, d: Disk, c: Command, io: seq<Io>)
    requires (!p.enabled && (c.Fetching? || c.Upgrade? || c.Remote?)) || d.latched || !Loads(p, d)
    ensures forall w | w in Performed(p, d, c, io) :: w in Allowed(p, d, c)
  {
    hide Loads, Execute;
    if c.Remote? {
      RefusedRequest(p, d, c, io);
    } else {
      RefusedItems(p, d, c);
      hide Dispatch;
      ExecutedAmong(Dispatch(p, d, c).items, io, Allowed(p, d, c));
    }
  }

  lemma RefusedRequest(p: Policy, d: Disk, c: Command, io: seq<Io>)
    requires c.Remote? && (!p.enabled || d.latched || !Loads(p, d))
    ensures forall w | w in Performed(p, d, c, io) :: w in Allowed(p, d, c)
  {
    hide Loads, Execute, Accept, Applied;
    var script := AcceptScript(p, d, c.request, c.now);
    assert script.failed && Among(script.items, Allowed(p, d, c));
    ExecutedAmong(script.items, io, Allowed(p, d, c));
  }

  lemma RefusedItems(p: Policy, d: Disk, c: Command)
    requires !c.Remote? && ((!p.enabled && (c.Fetching? || c.Upgrade?)) || d.latched || !Loads(p, d))
    ensures Among(Dispatch(p, d, c).items, Allowed(p, d, c))
  {
    hide Loads, ReconcilePlan, FetchedPlan, PreparePlan;
  }

  /** A plan that ended well between transactions drops the timer's flag; one that failed calls for an operator exactly here. */
  lemma SettledOutcomes(plan: Plan)
    ensures var s, mem := Settled(plan), plan.mem; var manual := mem.(phase := Phase.ManualRecovery);
            var latches := plan.end.Failed? && (!Between(mem.phase) || plan.end.error == Recovery);
            && (s.failed <==> plan.end.Failed?)
            && Writes(s.items)
               == Writes(plan.items)
                  + (if plan.end.Finished? && Between(mem.phase) then [RemovePending]
                     else if latches then [SaveJournal(manual), RequireRecovery] else [])
  {
  }

  /** What a journal that loads is good for: this policy, this trust, and a transaction that can still be undone. */
  lemma LoadedJournal(p: Policy, d: Disk)
    requires Loads(p, d)
    ensures var j := d.journal;
            && j.schema == 1 && j.anchor == p.anchor && j.channel == p.channel && j.target == p.target
            && 0 < j.hardFloor <= j.installed.sequence <= j.seenSequence < 0x20_0000_0000_0000
            && j.timeHigh > 0 && |j.failed| <= 64 && |j.roots| <= 128
            && j.installed.digest in d.objects
            && (forall v | v in j.roots :: v > 0 && j.roots[v].version == v && j.roots[v] in d.rootFiles
                  && 0 < j.roots[v].threshold <= |j.roots[v].keys * j.roots[v].signers|)
            && (if j.cache.Some? then j.cache.value in d.generations && d.generations[j.cache.value] == j.inventory
                else j.inventory == map[])
            && (!Between(j.phase) && j.phase != Phase.ManualRecovery ==> j.tx.Some?)
            && (j.tx.Some? ==>
                  var tx := j.tx.value;
                  && tx.from.sequence < tx.to.sequence <= j.seenSequence
                  && tx.from.digest in d.objects && tx.to.digest in d.objects
                  && (j.phase != Phase.Committed ==> tx.from == j.installed && j.hardFloor <= tx.from.sequence))
    ensures d.journal.remote.Some? ==>
              var u := d.journal.remote.value;
              Timely(u.request, u.acceptedAt) && u.status.requestId == Some(u.request.id)
  {
    if d.journal.remote.Some? {
      HexDigits(d.journal.remote.value.request.id);
    }
    hide ValidStatus, ValidDigest, LowerHex;
  }

  function Cleared(boot: bool): seq<Write> {
    if boot then [ClearMarks] else []
  }

  /**
   * A reconcile first clears the markers of an earlier boot, idle or not, and puts an abandoned download right,
   * before it looks at the transaction; an idle one then only drops the timer's flag.
   */
  lemma ReconcileWrites(p: Policy, d: Disk, boot: bool, h: Host)
    ensures var s, j, gate := ReconcileScript(p, d, boot, h), d.journal, IdleGate(p, d, h.activeFault);
            var repaired := if Between(j.phase) && StillWaiting(j)
                            then Reporting(j, j.remote.value.status.(phase := UpdatePhase.Failed, reason := Some(UpdateFailed)))
                            else j;
            && (gate == Ok(Gate.Idle) ==>
                  !s.failed && Writes(s.items) == Cleared(boot) + (if Between(j.phase) then [RemovePending] else []))
            && (gate.Err? || (gate == Ok(Proceed) && d.latched) ==> s.failed && s.items == [])
            && (gate == Ok(Proceed) && !d.latched ==>
                  exists t: Disk ::
                    var rest := Settled(ReconcilePlan(t, repaired, h, p));
                    && s.failed == rest.failed
                    && t == ApplyAll(d, Cleared(boot) + (if repaired == j then [] else [SaveJournal(repaired)]))
                    && Writes(s.items)
                       == Cleared(boot) + (if repaired == j then [] else [SaveJournal(repaired)]) + Writes(rest.items))
  {
    hide ReconcilePlan, IdleGate, Settled;
    var j := d.journal;
    ReportOutcomes(j, false);
    var m := RecoverDownload(j);
    hide RecoverDownload, ApplyAll, Reporting;
    var saves: seq<Item> := if m == j then [] else [Leave(SaveJournal(m), m)];
    var first := BootItems(boot, j) + saves;
    assert Writes(first) == Cleared(boot) + (if m == j then [] else [SaveJournal(m)]);
    if IdleGate(p, d, h.activeFault) == Ok(Proceed) && !d.latched {
      var rest := Settled(ReconcilePlan(Written(d, first), m, h, p));
      assert Writes(first + rest.items) == Writes(first) + Writes(rest.items);
    }
  }

  /** A fetch makes room before it brings anything in, and an operator or an open transaction keeps it from both. */
  lemma FetchWrites(p: Policy, d: Disk, s: Sweep, f: Fetch, h: Host)
    ensures d.latched || !Between(d.journal.phase) ==>
              FetchScript(p, d, s, f) == Script([], true) && UpgradeScript(p, d, s, f, h) == Script([], true)
    ensures !d.latched && Between(d.journal.phase) ==>
              var first := CollectPlan(d.journal, s).items;
              && first <= FetchScript(p, d, s, f).items && first <= UpgradeScript(p, d, s, f, h).items
              && FetchedPlan(p, d, d.journal, s, f).items == first + FetchPlan(p, Written(d, first), d.journal, f).items
  {
    hide CollectPlan, FetchPlan, PreparePlan, Settled, Tidy, MarkUpToDate, Written;
    if !d.latched && Between(d.journal.phase) {
      CollectFinishes(d.journal, s);
      var first := CollectPlan(d.journal, s).items;
      var fetched := FetchedPlan(p, d, d.journal, s, f);
      assert first <= fetched.items;
    }
  }

  lemma CollectFinishes(j: Journal, s: Sweep)
    requires Between(j.phase)
    ensures CollectPlan(j, s).end.Finished?
  {
    hide GenerationItems, ObjectItems;
  }

  /** An accepted request raises the timer's flag before the journal names it. */
  lemma RequestWrites(p: Policy, d: Disk, r: Request, now: nat)
    requires Loads(p, d) && p.enabled && !d.latched
    ensures var s, a := AcceptScript(p, d, r, now), Accept(p, d.journal, r, now);
            && (s.failed <==> a.Err?)
            && Writes(s.items) == (if a.Ok? then [CreatePending, SaveJournal(a.value)] else [])
  {
    hide Loads, Accept;
  }

  // ---- fetching -----------------------------------------------------------------------------------------------

  /** A load one of whose requests has failed never succeeds. */
  lemma {:induction false} BrokenLoadFails(d: Disk, j: Journal, l: Load)
    requires l.broken
    ensures LoadPlan(d, j, l).plan.end.Failed?
    decreases |l.visits|
  {
    hide CapturePlan, Refreshed, Guarded, Written;
    if l.visits != [] {
      var captured := CapturePlan(j, l.initial, l.client.files);
      if captured.end.Failed? {
        BrokenLoadFails(d, j, Aborted(l));
      } else {
        var begun := Begun(l);
        var d1 := Written(d, captured.items);
        var refreshed := Refreshed(d1, captured.mem, l.client.files, l.visits[0].nonce, begun.publishing);
        BrokenLoadFails(Written(d1, refreshed.items), refreshed.mem, NextLoad(begun, refreshed));
      }
    }
  }

  /** What cannot be captured or published before a request breaks the load. */
  lemma UnrecordedLoadFails(d: Disk, j: Journal, l: Load)
    requires l.visits != []
    requires var captured := CapturePlan(j, l.initial, l.client.files); var d1 := Written(d, captured.items);
             captured.end.Failed?
             || Refreshed(d1, captured.mem, l.client.files, l.visits[0].nonce, Begun(l).publishing).end.Failed?
    ensures LoadPlan(d, j, l).plan.end.Failed?
  {
    hide CapturePlan, Refreshed, Guarded, Written;
    var captured := CapturePlan(j, l.initial, l.client.files);
    if captured.end.Failed? {
      BrokenLoadFails(d, j, Aborted(l));
    } else {
      var begun, d1 := Begun(l), Written(d, captured.items);
      var refreshed := Refreshed(d1, captured.mem, l.client.files, l.visits[0].nonce, begun.publishing);
      BrokenLoadFails(Written(d1, refreshed.items), refreshed.mem, Aborted(begun));
    }
  }

  /** A load starts from the cached root, or the bootstrap root. */
  lemma LoadStarts(p: Policy, j: Journal, f: Fetch)
    ensures var l := Opening(p, j, f);
            && l.visits == f.visits && !l.publishing && !l.broken && l.client.trusted == l.initial
            && l.initial == (if j.cache.Some? && RootJson in j.inventory && j.inventory[RootJson].RootDoc?
                             then j.inventory[RootJson].root else p.bootstrap)
  {
  }

  /** Without a loaded repository and a matching payload nothing is stored. */
  lemma NothingStored(p: Policy, d: Disk, j: Journal, f: Fetch, files: Inventory)
    ensures f.repository.Unloadable? || !f.payload ==>
              var plan := ReleasePlan(p, d, j, f, files);
              plan.end.Failed? && forall i | 0 <= i < |plan.items| :: !plan.items[i].write.PutObject?
  {
    hide ValidRelease, Downgrades, Adopted;
  }

  /** A clock behind the accepted time floor refuses a fetch before it writes anything. */
  lemma ClockRefused(p: Policy, d: Disk, j: Journal, f: Fetch)
    ensures SaturatingAdd(f.now, 5) < j.timeHigh ==> FetchPlan(p, d, j, f) == Plan([], j, End.Failed(PolicyRejected))
  {
  }

  /** Roots and metadata the client holds in its working directory, in the record. */
  predicate Recorded(d: Disk, files: Inventory, published: bool) {
    && (RootJson in files ==> files[RootJson].RootDoc? && files[RootJson].root.version in d.journal.roots)
    && (published ==>
          && d.journal.cache.Some? && d.journal.inventory == files
          && d.journal.cache.value in d.generations && d.generations[d.journal.cache.value] == files)
  }

  /** Nothing of what a report shows has changed. */
  lemma StoredAsIs(j: Journal, m: Journal)
    requires j == Snapshot(j) && m == j.(roots := m.roots, cache := m.cache, inventory := m.inventory)
    ensures Snapshot(m) == m
  {
  }

  lemma CaptureRecords(d: Disk, j: Journal, initial: Root, files: Inventory)
    requires d.journal == j && j == Snapshot(j) && CacheStored(d)
    ensures var captured := CapturePlan(j, initial, files); var d1 := Written(d, captured.items);
            captured.end.Finished? ==>
              && d1.journal == captured.mem && captured.mem == j.(roots := captured.mem.roots)
              && CacheStored(d1) && Recorded(d1, files, false)
  {
    hide Continues, SelfSigned, Snapshot;
    var captured := CapturePlan(j, initial, files);
    if captured.items != [] {
      var root, recorded := files[RootJson].root, captured.mem;
      StoredAsIs(j, recorded);
      assert Writes(captured.items) == [PutRoot(root)] + [SaveJournal(recorded)];
      ApplyAllConcat(d, [PutRoot(root)], [SaveJournal(recorded)]);
      ApplyOne(d, PutRoot(root));
      ApplyOne(Apply(d, PutRoot(root)), SaveJournal(recorded));
    } else {
      assert Writes(captured.items) == [];
    }
  }

  lemma PublishRecords(d: Disk, j: Journal, files: Inventory, nonce: string)
    requires d.journal == j && j == Snapshot(j) && CacheStored(d)
    ensures var plan := PublishPlan(d, j, files, nonce); var d1 := Written(d, plan.items);
            plan.end.Finished? ==>
              && d1.journal.roots == j.roots && d1.journal.cache.Some? && d1.journal.inventory == files && CacheStored(d1)
  {
    hide Snapshot;
    var plan := PublishPlan(d, j, files, nonce);
    if plan.end.Finished? {
      StoredAsIs(j, plan.mem);
      var save := SaveJournal(plan.mem);
      if |plan.items| == 1 {
        assert Writes(plan.items) == [save];
        ApplyOne(d, save);
      } else {
        var make, fill := MakeGeneration(nonce), FillGeneration(nonce, files);
        assert Writes(plan.items) == [make] + ([fill] + [save]);
        ApplyAllConcat(d, [make], [fill] + [save]);
        ApplyAllConcat(Apply(d, make), [fill], [save]);
        ApplyOne(d, make);
        ApplyOne(Apply(d, make), fill);
        ApplyOne(Apply(Apply(d, make), fill), save);
      }
    }
  }

  /**
   * Before a request goes out, the root the client trusts is durable, and from the first timestamp on all of
   * its metadata is, under the generation the journal names.
   */
  lemma RequestsAfterRecord(d: Disk, j: Journal, l: Load)
    requires l.visits != [] && d.journal == j && j == Snapshot(j) && CacheStored(d)
    ensures var captured := CapturePlan(j, l.initial, l.client.files);
            var d1 := Written(d, captured.items); var begun := Begun(l);
            var refreshed := Refreshed(d1, captured.mem, l.client.files, l.visits[0].nonce, begun.publishing);
            captured.end.Finished? && refreshed.end.Finished? ==>
              Recorded(Written(d1, refreshed.items), l.client.files, l.publishing || l.visits[0].request.Timestamp?)
  {
    hide CapturePlan, PublishPlan, Written, Snapshot;
    var files := l.client.files;
    var captured := CapturePlan(j, l.initial, files);
    CaptureRecords(d, j, l.initial, files);
    if captured.end.Finished? {
      StoredAsIs(j, captured.mem);
      PublishRecords(Written(d, captured.items), captured.mem, files, l.visits[0].nonce);
      NothingWritten(Written(d, captured.items));
    }
  }

  lemma ApplyOne(d: Disk, w: Write)
    ensures ApplyAll(d, [w]) == Apply(d, w)
  {
    assert [w][1..] == [];
  }

  lemma NothingWritten(d: Disk)
    ensures Written(d, []) == d
  {
    assert Writes([]) == [];
  }
}
