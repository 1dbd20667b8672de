/** The durable journal, what makes one acceptable, and the remote request recorded in it. */
module Journals {
  import opened Options
  import opened AgentUpdate
  import opened LocalPolicy
  import opened Trust

  const FAILED_QUOTA := 64
  const TIME_SKEW_SECS := 5

  datatype Phase =
    | Stable | Prepared | Stopping | Trial | RollbackIntent | Committed | RolledBack | ManualRecovery

  predicate Terminal(p: Phase) {
    p in {Phase.Stable, Phase.Committed, Phase.RolledBack}
  }

  /** A transaction is open from its first durable write to its last. */
  predicate Open(p: Phase) {
    p in {Phase.Prepared, Phase.Stopping, Phase.Trial, Phase.RollbackIntent}
  }

  datatype Transaction = Transaction(
    from: Artifact,
    to: Artifact,
    boot: string,
    deadline: nat,
    oldInvocation: string,
    bridgeExit: string,
    rollbackConsumed: bool,
    recoveryRequested: bool,
    stableSince: Option<nat>,
    stableSample: Option<nat>,
    stableInvocation: Option<string>)

  datatype FileName = RootJson | TimestampJson | SnapshotJson | TargetsJson

  /** Cached metadata; a document stands for its digest. */
  datatype Doc = RootDoc(root: Root) | OtherDoc(body: nat)

  type Inventory = map<FileName, Doc>

  datatype RemoteUpdate = RemoteUpdate(
    request: Request, acceptedAt: nat, target: Option<Digest>, status: Status)

  datatype Journal = Journal(
    remote: Option<RemoteUpdate>,
    schema: nat,
    anchor: Digest,
    channel: string,
    target: string,
    phase: Phase,
    installed: Artifact,
    seenSequence: nat,
    seenDigest: Digest,
    hardFloor: nat,
    timeHigh: nat,
    cache: Option<string>,
    inventory: Inventory,
    roots: map<nat, Root>,
    failed: seq<Digest>,
    tx: Option<Transaction>)

  datatype Error = Recovery | Busy | PolicyRejected | Failure

  datatype Result<+T> = Ok(value: T) | Err(error: Error)

  // ---- acceptance of a journal --------------------------------------------------------------

  predicate RemoteValid(j: Journal) {
    j.remote.Some? ==>
      var update := j.remote.value;
      && ValidRequest(update.request, update.acceptedAt)
      && ValidStatus(update.status)
      && update.status.requestId == Some(update.request.id)
      && (update.target.Some? ==> ValidDigest(update.target.value))
  }

  predicate TransactionValid(j: Journal) {
    j.tx.Some? ==>
      var tx := j.tx.value;
      && ValidArtifact(tx.from)
      && ValidArtifact(tx.to)
      && tx.to.sequence > tx.from.sequence
      && (tx.from == j.installed || j.phase == Phase.Committed)
      && tx.to.sequence <= j.seenSequence
      && (tx.from.sequence >= j.hardFloor || j.phase == Phase.Committed)
  }

  /** `Journal::validate` */
  predicate Validate(p: Policy, j: Journal) {
    && RemoteValid(j)
    && j.schema == 1 && j.anchor == p.anchor && j.channel == p.channel && j.target == p.target
    && |j.failed| <= FAILED_QUOTA
    && |j.roots| <= ROOT_QUOTA
    && 0 !in j.roots
    && j.timeHigh != 0
    && ValidArtifact(j.installed) && ValidDigest(j.seenDigest)
    && (forall i :: 0 <= i < |j.failed| ==> ValidDigest(j.failed[i]))
    && ValidSequence(j.seenSequence) && ValidSequence(j.hardFloor)
    && j.hardFloor <= j.installed.sequence <= j.seenSequence
    && (Terminal(j.phase) || j.phase == Phase.ManualRecovery || j.tx.Some?)
    && TransactionValid(j)
  }

  /** `initialize`: the journal written at enrollment. */
  function Enrolled(p: Policy, now: nat): Journal {
    Journal(None, 1, p.anchor, p.channel, p.target, Phase.Stable, p.baseline,
            p.baseline.sequence, p.baseline.digest, p.minimumSequence, now,
            None, map[], map[], [], None)
  }

  /** `latch_failure`: only the phase changes. */
  function Latched(j: Journal): Journal {
    j.(phase := Phase.ManualRecovery)
  }

  predicate Latches(j: Journal, e: Error) {
    !Terminal(j.phase) || e == Recovery
  }

  // ---- the remote request ---------------------------------------------------------------------

  /** The stored request and the current transaction speak about the same release. */
  predicate Owns(j: Journal) {
    && j.remote.Some? && j.tx.Some?
    && j.remote.value.target == Some(j.tx.value.to.digest)
    && j.remote.value.status.targetSequence == Some(j.tx.value.to.sequence)
  }

  function PhaseReport(phase: Phase, otherwise: UpdatePhase): UpdatePhase {
    match phase
    case Prepared => UpdatePhase.Prepared
    case Stopping => UpdatePhase.Stopping
    case Trial => UpdatePhase.Trial
    case Committed => UpdatePhase.Committed
    case RolledBack => UpdatePhase.RolledBack
    case RollbackIntent => UpdatePhase.RollingBack
    case ManualRecovery => UpdatePhase.ManualRecovery
    case Stable => otherwise
  }

  /** `result_status` */
  function ResultStatus(j: Journal): Status {
    var base := if j.remote.Some? then j.remote.value.status
                else Status(Ready, Idle, None, 0, 0, None, None, None, None);
    var dressed := base.(
      installedSequence := Some(j.installed.sequence),
      nextRequestAt := if j.remote.Some?
                       then SaturatingAdd(j.remote.value.acceptedAt, UPDATE_COOLDOWN_SECS) else 0,
      channel := Some(j.channel));
    if Owns(j) then dressed.(phase := PhaseReport(j.phase, dressed.phase)) else dressed
  }

  /** `status`: what is published; availability follows the current transaction. */
  function PublicStatus(j: Journal): Status {
    var status := ResultStatus(j).(capability := Ready);
    if j.phase == Phase.ManualRecovery then
      status.(capability := RecoveryNeeded, phase := UpdatePhase.ManualRecovery, reason := Some(OperatorNeeded))
    else if !Terminal(j.phase) && !Owns(j) then
      status.(capability := Disabled, reason := Some(Reason.Busy))
    else status
  }

  /** `snapshot`: the form in which every journal reaches the disk. */
  function Snapshot(j: Journal): Journal {
    if j.remote.Some? then j.(remote := Some(j.remote.value.(status := ResultStatus(j)))) else j
  }

  function WithStatus(j: Journal, s: Status): Journal
    requires j.remote.Some?
  {
    j.(remote := Some(j.remote.value.(status := s)))
  }

  /** The guard shared by `recover_download`, `up_to_date` and `bind`. */
  predicate StillDownloading(j: Journal) {
    && j.remote.Some?
    && j.remote.value.target.None?
    && j.remote.value.status.phase == Downloading
  }

  /** `recover_download`, without its save. */
  function RecoverDownload(j: Journal): Journal {
    if Terminal(j.phase) && StillDownloading(j) then
      WithStatus(j, j.remote.value.status.(phase := UpdatePhase.Failed, reason := Some(UpdateFailed)))
    else j
  }

  function MarkUpToDate(j: Journal): Journal {
    if StillDownloading(j) then WithStatus(j, j.remote.value.status.(phase := UpToDate)) else j
  }

  function Bind(j: Journal, to: Artifact): Journal {
    if StillDownloading(j) then
      j.(remote := Some(j.remote.value.(
        target := Some(to.digest),
        status := j.remote.value.status.(targetSequence := Some(to.sequence)))))
    else j
  }

  /** The tail of `run`: record how the triggered apply ended. */
  function Reported(j: Journal, failed: bool): Journal {
    if j.remote.None? then j
    else if failed then
      WithStatus(j, j.remote.value.status.(phase := UpdatePhase.Failed, reason := Some(UpdateFailed)))
    else if j.remote.value.target.None? then
      WithStatus(j, j.remote.value.status.(phase := UpToDate))
    else j
  }

  /** `accept` */
  function Accept(p: Policy, j: Journal, request: Request, now: nat): Result<Journal> {
    if !p.allowRemote || !ValidRequest(request, now) then Err(PolicyRejected)
    else if !Terminal(j.phase) then Err(Error.Busy)
    else if j.remote.Some? && (j.remote.value.request.id == request.id
                               || now < SaturatingAdd(j.remote.value.acceptedAt, UPDATE_COOLDOWN_SECS))
      then Err(PolicyRejected)
    else
      var status := PublicStatus(j).(
        phase := Downloading, requestId := Some(request.id), reason := None,
        updatedAt := now, targetSequence := None);
      Ok(j.(remote := Some(RemoteUpdate(request, now, None, status))))
  }

  // ---- the time floor -------------------------------------------------------------------------

  datatype FloorReset = Unchanged | Lowered(previous: nat, lowered: nat)

  /** `clock::plan` */
  function PlanReset(confirmed: bool, terminal: bool, latched: bool, timeHigh: nat, now: nat): Result<FloorReset> {
    if !confirmed then Err(PolicyRejected)
    else if latched then Err(Recovery)
    else if !terminal then Err(Error.Busy)
    else if timeHigh <= SaturatingAdd(now, TIME_SKEW_SECS) then Ok(Unchanged)
    else Ok(Lowered(timeHigh, now))
  }

  // ---- facts about single journals --------------------------------------------------------------

  lemma SnapshotIdempotent(j: Journal)
    ensures Snapshot(Snapshot(j)) == Snapshot(j)
  {
  }

  /**
   * Latching a loadable journal leaves it loadable exactly when its transaction, if any, still
   * starts at the installed artifact: never for one that was `Committed`.
   */
  lemma LatchedLoadsIff(p: Policy, j: Journal)
    requires ValidPolicy(p) && Validate(p, j)
    ensures Validate(p, Latched(j)) <==>
              (j.tx.Some? && j.phase == Phase.Committed ==>
                 j.tx.value.from == j.installed && j.tx.value.from.sequence >= j.hardFloor)
  {
  }

  /** The journal of an enrollment loads exactly when the clock was past 1970. */
  lemma EnrolledLoadsIff(p: Policy, now: nat)
    requires ValidPolicy(p)
    ensures Validate(p, Enrolled(p, now)) <==> now > 0
  {
  }

  /** Resetting the time floor keeps a loadable journal loadable exactly when the clock is past 1970. */
  lemma FloorResetLoadsIff(p: Policy, j: Journal, now: nat)
    requires Validate(p, j)
    requires PlanReset(true, Terminal(j.phase), false, j.timeHigh, now).Ok?
    requires PlanReset(true, Terminal(j.phase), false, j.timeHigh, now).value.Lowered?
    ensures Validate(p, j.(timeHigh := now)) <==> now > 0
  {
  }

  /** Whatever a granted reset does, the fetch that follows is not refused for its clock. */
  lemma ResetUnblocksFetch(confirmed: bool, terminal: bool, latched: bool, timeHigh: nat, now: nat)
    requires now <= U64_MAX
    ensures var plan := PlanReset(confirmed, terminal, latched, timeHigh, now);
            && (plan.Ok? <==> confirmed && terminal && !latched)
            && (plan.Ok? ==>
                  var floor := if plan.value.Lowered? then plan.value.lowered else timeHigh;
                  floor <= timeHigh && floor <= SaturatingAdd(now, TIME_SKEW_SECS))
  {
  }
}
