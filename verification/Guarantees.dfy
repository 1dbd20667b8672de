/** What the README of the updater promises, read off the invariant for every reachable world. */
module Guarantees {
  import opened Options
  import opened AgentUpdate
  import opened LocalPolicy
  import opened Trust
  import opened Journals
  import opened Disks
  import opened Hosts
  import opened Activate
  import opened Download
  import opened Runtime
  import opened Worlds
  import opened Safety
  import opened Commands
  import opened Runs

  // ---- at rest: every moment between two durable writes -----------------------------------------------

  /** `active` names known code in every phase, and an open transaction keeps the timer running. */
  lemma PointerConsistent(p: Policy, w: World)
    ensures ValidPolicy(p) && Reachable(p, w) ==>
              var d := w.state.disk; var j := d.journal;
              && (Terminal(j.phase) ==> d.active == j.installed.digest)
              && (j.phase in {Phase.Prepared, Phase.Stopping} ==> j.tx.Some? && d.active == j.tx.value.from.digest)
              && (j.phase in {Phase.Trial, Phase.RollbackIntent} ==>
                    j.tx.Some? && d.active in {j.tx.value.from.digest, j.tx.value.to.digest})
              && (j.phase == Phase.Committed ==> j.tx.Some? && j.installed == j.tx.value.to)
              && (j.phase == Phase.RolledBack ==> j.tx.Some? && j.installed == j.tx.value.from)
              && (Open(j.phase) ==> d.pending)
              && d.active in d.objects
  {
    ReachableInv(p, w);
    hide Reachable, ValidPolicy, HistInv, Lawful, TrustKept;
  }

  /** A disk stops loading exactly when a committed journal was latched; nothing else ever spoils it. */
  lemma LoadsUnlessDead(p: Policy, w: World)
    ensures ValidPolicy(p) && Reachable(p, w) ==> (Loads(p, w.state.disk) <==> !Dead(w.state.disk.journal))
  {
    ReachableInv(p, w);
    hide Reachable, ValidPolicy, HistInv, Validate, Pointer, Chain, Snapshot;
  }

  /** Rollback stays authorised and possible for as long as a transaction is open. */
  lemma RollbackAuthorised(p: Policy, w: World)
    ensures ValidPolicy(p) && Reachable(p, w) && Open(w.state.disk.journal.phase) ==>
              var d := w.state.disk; var j := d.journal;
              && j.tx.Some? && j.tx.value.from == j.installed
              && p.minimumSequence <= j.hardFloor <= j.tx.value.from.sequence
              && j.tx.value.from.digest in d.objects
  {
    ReachableInv(p, w);
    hide Reachable, ValidPolicy, HistInv, TrustKept, Pointer, RemoteValid, Snapshot;
  }

  /** Enough keys of the root itself and of the one before it, or of the bootstrap root, signed the root. */
  ghost predicate Vouched(bootstrap: Root, roots: map<nat, Root>, v: nat)
    requires v in roots
  {
    var r := roots[v];
    var before := if v > 0 && v != bootstrap.version && v - 1 in roots then roots[v - 1] else bootstrap;
    && r.version == v > 0
    && r.threshold > 0 && |r.keys * r.signers| >= r.threshold
    && before.threshold > 0 && |before.keys * r.signers| >= before.threshold
    && (v == bootstrap.version ==>
          r.keys == bootstrap.keys && r.threshold == bootstrap.threshold && r.body == bootstrap.body)
  }

  lemma SpansVouch(bootstrap: Root, roots: map<nat, Root>, lo: nat)
    requires Spans(bootstrap, roots, lo)
    ensures forall v | v in roots :: Vouched(bootstrap, roots, v)
  {
    forall v | v in roots ensures Vouched(bootstrap, roots, v) {
      assert SelfSigned(roots[v]) && Authorised(bootstrap, roots, v);
      if v == bootstrap.version {
        assert bootstrap.(signers := {}).keys == roots[v].(signers := {}).keys;
        assert bootstrap.(signers := {}).threshold == roots[v].(signers := {}).threshold;
        assert bootstrap.(signers := {}).body == roots[v].(signers := {}).body;
      }
    }
  }

  /**
   * The recorded roots form one gap-free authorised interval, the bootstrap document is recorded as
   * itself if at all, and the cached root is one of the recorded documents.
   */
  lemma RootHistory(p: Policy, w: World)
    ensures ValidPolicy(p) && Reachable(p, w) ==>
              var j := w.state.disk.journal;
              && (exists lo: nat :: Spans(p.bootstrap, j.roots, lo))
              && (forall v | v in j.roots :: Vouched(p.bootstrap, j.roots, v))
              && (p.bootstrap.version in j.roots ==> j.roots[p.bootstrap.version] == p.bootstrap)
              && (j.cache.Some? ==>
                    && RootJson in j.inventory && j.inventory[RootJson].RootDoc?
                    && Recorded(j.roots, j.inventory[RootJson].root))
  {
    ReachableInv(p, w);
    if ValidPolicy(p) && Reachable(p, w) {
      var lo: nat :| Spans(p.bootstrap, w.state.disk.journal.roots, lo);
      SpansVouch(p.bootstrap, w.state.disk.journal.roots, lo);
    }
    hide Reachable, ValidPolicy, HistInv, Lawful, Pointer, Spans, Vouched;
  }

  /** Where the client is led if it takes every answer to `visits`. */
  function Walk(roots: map<nat, Root>, c: Client, visits: seq<Visit>): Client
    decreases |visits|
  {
    if visits == [] then c else Walk(roots, Moved(c, visits[0], Answer(roots, c, visits[0])), visits[1..])
  }

  predicate Walks(visits: seq<Visit>) {
    forall i | 0 <= i < |visits| :: visits[i].request.NextRoot? && visits[i].accepts
  }

  /**
   * No mirror hides a recorded root: whatever it offers, a client asking for one next root after another
   * is led from the root its load starts with to the newest recorded one.
   */
  lemma MirrorsHideNoRoot(p: Policy, w: World, files: Inventory, visits: seq<Visit>)
    ensures ValidPolicy(p) && Reachable(p, w) && Walks(visits) ==>
              var j := w.state.disk.journal; var initial := InitialRoot(p, j);
              initial.version + |visits| in j.roots ==>
                Walk(j.roots, Client(initial, files), visits).trusted == j.roots[initial.version + |visits|]
  {
    hide Reachable, ValidPolicy, Spans, Walk, Walks;
    if ValidPolicy(p) && Reachable(p, w) && Walks(visits) {
      RootHistory(p, w);
      var roots, initial := w.state.disk.journal.roots, InitialRoot(p, w.state.disk.journal);
      var lo: nat :| Spans(p.bootstrap, roots, lo);
      if initial.version + |visits| in roots {
        InitialGenuine(p, w.state.disk.journal, lo);
        WalkReplays(p, roots, lo, Client(initial, files), visits);
      }
    }
  }

  lemma InitialGenuine(p: Policy, j: Journal, lo: nat)
    requires Spans(p.bootstrap, j.roots, lo)
    requires p.bootstrap.version in j.roots ==> j.roots[p.bootstrap.version] == p.bootstrap
    requires j.cache.Some? ==>
               RootJson in j.inventory && j.inventory[RootJson].RootDoc? && Recorded(j.roots, j.inventory[RootJson].root)
    ensures p.bootstrap.version <= InitialRoot(p, j).version
    ensures InitialRoot(p, j).version in j.roots ==> Recorded(j.roots, InitialRoot(p, j))
  {
    hide Authorised, SelfSigned;
  }

  lemma {:induction false} WalkReplays(p: Policy, roots: map<nat, Root>, lo: nat, c: Client, visits: seq<Visit>)
    requires Spans(p.bootstrap, roots, lo) && p.bootstrap.version <= c.trusted.version && Walks(visits)
    requires c.trusted.version in roots ==> Recorded(roots, c.trusted)
    requires c.trusted.version + |visits| in roots
    ensures Walk(roots, c, visits).trusted == roots[c.trusted.version + |visits|]
    decreases |visits|
  {
    hide Authorised, SelfSigned, Filed;
    if visits != [] {
      var next := Moved(c, visits[0], Answer(roots, c, visits[0]));
      assert Recorded(roots, next.trusted) && next.trusted.version == c.trusted.version + 1;
      hide Spans, Moved, Answer;
      WalkReplays(p, roots, lo, next, visits[1..]);
    }
  }

  /** No transaction that can still move forward targets a digest that failed before. */
  lemma TargetsNeverFailed(p: Policy, w: World)
    ensures ValidPolicy(p) && Reachable(p, w) ==>
              var j := w.state.disk.journal;
              && (j.phase in {Phase.Prepared, Phase.Stopping, Phase.Trial} ==>
                    j.tx.Some? && j.tx.value.to.digest !in j.failed)
              && (j.phase == Phase.RollbackIntent ==> j.tx.Some? && j.tx.value.to.digest in j.failed)
  {
    ReachableInv(p, w);
    hide Reachable, ValidPolicy, BarrierInv, StreakInv, TruthInv, AcceptedInv, Lawful, TrustKept;
  }

  /** Accepted requests are a cooldown apart, and none is accepted twice. */
  lemma AcceptedOnce(p: Policy, w: World, i: nat, k: nat)
    ensures ValidPolicy(p) && Reachable(p, w) && i < k < |w.state.hist.accepted| ==>
              var accepted := w.state.hist.accepted;
              && accepted[k].at >= accepted[i].at + UPDATE_COOLDOWN_SECS
              && accepted[k].request != accepted[i].request
  {
    ReachableInv(p, w);
    hide Reachable, ValidPolicy, DiskInv, BarrierInv, StreakInv, FailedInv, TruthInv;
    if ValidPolicy(p) && Reachable(p, w) && i < k < |w.state.hist.accepted| {
      var accepted := w.state.hist.accepted;
      assert accepted[k].at >= accepted[i].at + UPDATE_COOLDOWN_SECS;
      RequestLifetime(accepted[i].request, accepted[i].at, accepted[k].at);
    }
  }

  /**
   * A stored `Committed` names an artifact this host committed after it accepted the stored request and before
   * any other; none older than it is installed.
   */
  lemma ReportedCommitsHappened(p: Policy, w: World)
    ensures ValidPolicy(p) && Reachable(p, w) ==>
              var j := w.state.disk.journal;
              j.remote.Some? && j.remote.value.status.phase == UpdatePhase.Committed ==>
                && j.remote.value.target.Some? && j.remote.value.status.targetSequence.Some?
                && var a := Artifact(j.remote.value.target.value, j.remote.value.status.targetSequence.value);
                   var accepted := w.state.hist.accepted;
                   && Commitment(a, |accepted|) in w.state.hist.commits && a.sequence <= j.installed.sequence
                   && accepted != [] && accepted[|accepted| - 1] == Acceptance(j.remote.value.request, j.remote.value.acceptedAt)
  {
    ReachableInv(p, w);
    hide Reachable, ValidPolicy, DiskInv, BarrierInv, StreakInv, FailedInv;
  }

  /** Unattended recovery idles only on code known to be good: installed, or an authorised rollback target. */
  lemma IdlesOnlyOnKnownGood(p: Policy, w: World, fault: Option<Error>)
    ensures ValidPolicy(p) && Reachable(p, w) && Loads(p, w.state.disk)
            && IdleGate(p, w.state.disk, fault) == Ok(Gate.Idle) ==>
              var d := w.state.disk; var j := d.journal;
              && (d.latched || (!p.enabled && Terminal(j.phase)))
              && (d.active == j.installed.digest
                  || (j.tx.Some? && d.active == j.tx.value.from.digest && j.hardFloor <= j.tx.value.from.sequence))
              && (j.phase == Phase.Trial && j.tx.Some? && d.active == j.tx.value.to.digest ==>
                    j.tx.value.to.digest == j.tx.value.from.digest)
  {
    if ValidPolicy(p) && Reachable(p, w) && Loads(p, w.state.disk) {
      RollbackAuthorised(p, w);
    }
    hide Reachable, ValidPolicy, Loads;
  }

  /**
   * How a rolled-back transaction is remembered: a trial always, a preparation unless the machine was
   * rebooted under it, a stop never, since only a reboot abandons it.
   */
  lemma OnlyRebootsAreForgiven(p: Policy, d: Disk, j: Journal, h: Host)
    requires j.tx.Some? && Open(j.phase)
    ensures var plan := ReconcilePlan(d, j, h, p); var grown := j.failed + [j.tx.value.to.digest];
            plan.end.Finished? && plan.mem.phase == Phase.RolledBack ==>
              match j.phase
              case Trial => plan.mem.failed == grown
              case Prepared => plan.mem.failed == (if h.boot == Some(j.tx.value.boot) then grown else j.failed)
              case Stopping => plan.mem.failed == j.failed && h.boot != Some(j.tx.value.boot)
              case _ => plan.mem.failed == j.failed
  {
    RollbackRemembers(d, j, h);
    if j.phase == Phase.Trial {
      TrialRemembers(p, d, j, h);
    }
    hide RollbackPlan, TrialPlan, Stopped;
  }

  lemma RollbackRemembers(d: Disk, j: Journal, h: Host)
    requires j.tx.Some?
    ensures var plan := RollbackPlan(d, j, h); var grown := j.failed + [j.tx.value.to.digest];
            plan.end.Finished? ==> plan.mem.failed == if j.phase == Phase.RollbackIntent then j.failed else grown
  {
    hide Health;
  }

  lemma TrialRemembers(p: Policy, d: Disk, j: Journal, h: Host)
    requires j.tx.Some? && j.phase == Phase.Trial
    ensures var plan := TrialPlan(d, j, h, p); var grown := j.failed + [j.tx.value.to.digest];
            plan.end.Finished? && plan.mem.phase == Phase.RolledBack ==> plan.mem.failed == grown
  {
    hide RollbackPlan, TrialEvidence;
    RollbackRemembers(d, j, h);
    if h.clock.Some? && h.trial.Some? {
      var v := Judge(j.tx.value, TrialEvidence(d.active, j.tx.value, h.trial.value), h.clock.value.first, p);
      RollbackRemembers(d, Judged(j, v), h);
    }
  }

  // ---- at each durable write of any command ---------------------------------------------------------------

  /** The state in which a command attempts its `i`-th effective write. */
  function Moment(p: Policy, w: World, c: Command, io: seq<Io>, i: nat): State
    requires i <= |Performed(p, w.state.disk, c, io)|
  {
    DoAll(Started(p, w, c), Performed(p, w.state.disk, c, io)[..i])
  }

  ghost predicate Attempts(p: Policy, w: World, c: Command, io: seq<Io>, i: nat) {
    ValidPolicy(p) && Reachable(p, w) && CommandOk(w.env, c) && i < |Performed(p, w.state.disk, c, io)|
  }

  lemma MomentPermitted(p: Policy, w: World, c: Command, io: seq<Io>, i: nat)
    requires Attempts(p, w, c, io, i)
    ensures var t := Moment(p, w, c, io, i); var write := Performed(p, w.state.disk, c, io)[i];
            && Inv(p, w.env, t) && Permitted(p, t, write)
            && Moment(p, w, c, io, i + 1) == Do(t, write) && Inv(p, w.env, Do(t, write))
  {
    ReachableWrites(p, w, c, io);
    hide Inv, Permitted, Reachable, ValidPolicy, CommandOk, Performed, Begin, Do;
    var s, ws := Started(p, w, c), Performed(p, w.state.disk, c, io);
    SafeAt(p, w.env, s, ws, i);
    if i + 1 < |ws| {
      SafeAt(p, w.env, s, ws, i + 1);
    } else {
      AllSafeEnds(p, w.env, s, ws);
      assert ws[..i + 1] == ws;
    }
  }

  /** A commit is written only at the end of an earned streak. */
  lemma CommitsAreEarned(p: Policy, w: World, c: Command, io: seq<Io>, i: nat)
    ensures Attempts(p, w, c, io, i) ==>
              var t := Moment(p, w, c, io, i); var write := Performed(p, w.state.disk, c, io)[i];
              write.SaveJournal? && write.state.phase == Phase.Committed && t.disk.journal.phase != Phase.Committed ==>
                && t.disk.journal.phase == Phase.Trial && t.disk.journal.tx.Some?
                && t.disk.active == t.disk.journal.tx.value.to.digest
                && Earned(p, t.disk.journal.tx.value, Moment(p, w, c, io, i + 1).hist.trial)
  {
    if Attempts(p, w, c, io, i) {
      MomentPermitted(p, w, c, io, i);
      var t := Moment(p, w, c, io, i);
      var write := Performed(p, w.state.disk, c, io)[i];
      hide Attempts, Performed, Moment;
      if write.SaveJournal? && write.state.phase == Phase.Committed && t.disk.journal.phase != Phase.Committed {
        CommitFacts(p, w.env, t, write.state);
      }
    }
  }

  lemma CommitFacts(p: Policy, env: Env, t: State, state: Journal)
    requires Inv(p, env, t) && Permitted(p, t, SaveJournal(state)) && Inv(p, env, Do(t, SaveJournal(state)))
    requires state.phase == Phase.Committed && t.disk.journal.phase != Phase.Committed
    ensures t.disk.journal.phase == Phase.Trial && t.disk.journal.tx.Some?
    ensures Earned(p, t.disk.journal.tx.value, Do(t, SaveJournal(state)).hist.trial)
    ensures t.disk.active == t.disk.journal.tx.value.to.digest
  {
    hide Lawful, TrustKept, HistInv, Earned;
  }

  predicate Passed(c: Completion, unit: UnitName, boot: string) {
    c.unit == unit && c.boot == boot && c.success
  }

  /** The host told this tick that the stop was taken up and that no agent process is left. */
  ghost predicate ToldQuiet(w: World, c: Command) {
    && c.Reconcile? && (c.boot || StopMark !in w.state.disk.marks)
    && c.host.agent.Some? && NobodyLeft(c.host.agent.value, c.host.cgroup)
  }

  lemma {:induction false} QuietStays(s: State, ws: seq<Write>)
    ensures DoAll(s, ws).hist.quiet == s.hist.quiet
    decreases |ws|
  {
    if ws != [] {
      assert Do(s, ws[0]).hist.quiet == s.hist.quiet;
      hide Do;
      QuietStays(Do(s, ws[0]), ws[1..]);
    }
  }

  lemma QuietTold(p: Policy, w: World, c: Command, ws: seq<Write>)
    ensures DoAll(Started(p, w, c), ws).hist.quiet ==> ToldQuiet(w, c)
  {
    hide Watch, Noting, Stopped, NobodyLeft;
    QuietStays(Started(p, w, c), ws);
    if c.Reconcile? && c.host.agent.Some? {
      StoppedIff(c.host.agent.value, c.host.cgroup);
    }
  }

  /**
   * Only a trial points `active` at the new code, and only after this boot's preflight passed since
   * `prepare` sampled it and the stop unit ran since `prepared` sampled it; and the tick that does it was
   * told that the stop marker is gone, the agent's unit is down and its control group is empty.
   */
  lemma ActivationWaitsForBarrier(p: Policy, w: World, c: Command, io: seq<Io>, i: nat)
    ensures Attempts(p, w, c, io, i) && Performed(p, w.state.disk, c, io)[i].PointActive? ==>
              var t := Moment(p, w, c, io, i); var j, h := t.disk.journal, t.hist;
              var digest := Performed(p, w.state.disk, c, io)[i].digest;
              && j.tx.Some?
              && (|| (j.phase == Phase.RollbackIntent && digest == j.tx.value.from.digest)
                  || (&& j.phase == Phase.Trial && digest == j.tx.value.to.digest && ToldQuiet(w, c)
                      && (exists a: nat, b: nat ::
                            && h.preparedAt <= a < h.stoppedAt <= b < |w.env.log|
                            && Passed(w.env.log[a], PreflightUnit, j.tx.value.boot)
                            && Passed(w.env.log[b], StopUnit, j.tx.value.boot))))
  {
    if Attempts(p, w, c, io, i) && Performed(p, w.state.disk, c, io)[i].PointActive? {
      MomentPermitted(p, w, c, io, i);
      var t := Moment(p, w, c, io, i);
      QuietTold(p, w, c, Performed(p, w.state.disk, c, io)[..i]);
      hide Attempts, Performed, Moment, Inv, Permitted, Passed, ToldQuiet;
      PointFacts(p, w.env, t, Performed(p, w.state.disk, c, io)[i].digest);
    }
  }

  lemma PointFacts(p: Policy, env: Env, t: State, digest: Digest)
    requires Inv(p, env, t) && Permitted(p, t, PointActive(digest))
    ensures var j, h := t.disk.journal, t.hist;
            && j.tx.Some?
            && (|| (j.phase == Phase.RollbackIntent && digest == j.tx.value.from.digest)
                || (&& j.phase == Phase.Trial && digest == j.tx.value.to.digest && h.quiet
                    && (exists a: nat, b: nat ::
                          && h.preparedAt <= a < h.stoppedAt <= b < |env.log|
                          && Passed(env.log[a], PreflightUnit, j.tx.value.boot)
                          && Passed(env.log[b], StopUnit, j.tx.value.boot))))
  {
    hide DiskInv, StreakInv, FailedInv, TruthInv, AcceptedInv, SampleFresh, Do;
    var j, h := t.disk.journal, t.hist;
    if j.phase == Phase.Trial {
      var a: nat :| h.preparedAt <= a < h.stoppedAt && a < |env.log| && env.log[a].unit == PreflightUnit
               && env.log[a].boot == j.tx.value.boot && env.log[a].success;
      var b: nat :| h.stoppedAt <= b < |env.log| && env.log[b].unit == StopUnit
               && env.log[b].boot == j.tx.value.boot && env.log[b].success;
      assert Passed(env.log[a], PreflightUnit, j.tx.value.boot);
      assert Passed(env.log[b], StopUnit, j.tx.value.boot);
    }
  }

  /** What a marker, a candidate or a payload may be written in. */
  ghost predicate InPlace(env: Env, t: State, write: Write) {
    var d, j, h := t.disk, t.disk.journal, t.hist;
    match write
    case PutMark(mark) =>
      && (mark.PreflightMark? ==> j.phase == Phase.Prepared)
      && (mark.StopMark? ==>
            && j.phase == Phase.Stopping && j.tx.Some?
            && exists a: nat :: h.preparedAt <= a < h.stoppedAt && a < |env.log|
                                && Passed(env.log[a], PreflightUnit, j.tx.value.boot))
      && (mark.RestartMark? ==>
            && j.tx.Some?
            && ((j.phase == Phase.Trial && d.active == j.tx.value.to.digest)
                || (j.phase == Phase.RollbackIntent && d.active == j.tx.value.from.digest)))
    case PointCandidate(digest) =>
      && digest == j.seenDigest && digest !in j.failed && j.seenSequence > j.installed.sequence
    case PutObject(digest) => digest == j.seenDigest
    case _ => true
  }

  lemma PlaceFacts(p: Policy, env: Env, t: State, write: Write)
    requires Inv(p, env, t) && Permitted(p, t, write)
    ensures InPlace(env, t, write)
  {
    if write == PutMark(StopMark) {
      PreflightFirst(p, env, t);
    }
    hide Inv, Passed, Do;
  }

  /**
   * The root bridge is asked to stop the agent only after this boot's preflight of the candidate, to restart it
   * only when `active` names the code to run, and to preflight only what is prepared. A candidate is pointed
   * at, and a payload stored, only once the journal has adopted its release and floors.
   */
  lemma AskedInPlace(p: Policy, w: World, c: Command, io: seq<Io>, i: nat)
    ensures Attempts(p, w, c, io, i) ==> InPlace(w.env, Moment(p, w, c, io, i), Performed(p, w.state.disk, c, io)[i])
  {
    if Attempts(p, w, c, io, i) {
      MomentPermitted(p, w, c, io, i);
      hide Attempts, Performed, Moment, Inv, Permitted, InPlace;
      PlaceFacts(p, w.env, Moment(p, w, c, io, i), Performed(p, w.state.disk, c, io)[i]);
    }
  }

  lemma PreflightFirst(p: Policy, env: Env, t: State)
    requires Inv(p, env, t) && t.disk.journal.phase == Phase.Stopping
    ensures var j, h := t.disk.journal, t.hist;
            && j.tx.Some?
            && exists a: nat :: h.preparedAt <= a < h.stoppedAt && a < |env.log| && Passed(env.log[a], PreflightUnit, j.tx.value.boot)
  {
    hide DiskInv, StreakInv, FailedInv, TruthInv, AcceptedInv, SampleFresh;
    var j, h := t.disk.journal, t.hist;
    var a: nat :| h.preparedAt <= a < h.stoppedAt && a < |env.log| && env.log[a].unit == PreflightUnit
             && env.log[a].boot == j.tx.value.boot && env.log[a].success;
    assert Passed(env.log[a], PreflightUnit, j.tx.value.boot);
  }

  /** What one journal write may change. */
  predicate Orderly(a: Journal, b: Journal) {
    && (!Terminal(a.phase) ==> SameTrust(a, b))
    && (a.phase == Phase.Trial && b.phase == Phase.Committed ==> a.tx.Some? && b.installed == a.tx.value.to)
    && (!(a.phase == Phase.Trial && b.phase == Phase.Committed) ==> b.installed == a.installed)
    && (Starts(a, b) || (Rank(a.phase) <= Rank(b.phase) && (a.tx.Some? ==> SameDeal(a, b))))
    && (b.failed == a.failed || (a.tx.Some? && b.failed == a.failed + [a.tx.value.to.digest]))
    && RemoteMove(a, b)
  }

  lemma OrderlyFacts(p: Policy, t: State, write: Write)
    requires Permitted(p, t, write) && write.SaveJournal?
    ensures Orderly(t.disk.journal, Do(t, write).disk.journal)
  {
    hide Snapshot, RemoteMove, Remember, Earned;
  }

  /** Journal writes move every phase forwards and, outside settled phases, leave trust alone. */
  lemma TrustFrozenWhileOpen(p: Policy, w: World, c: Command, io: seq<Io>, i: nat)
    ensures Attempts(p, w, c, io, i) && Performed(p, w.state.disk, c, io)[i].SaveJournal? ==>
              Orderly(Moment(p, w, c, io, i).disk.journal, Moment(p, w, c, io, i + 1).disk.journal)
  {
    if Attempts(p, w, c, io, i) && Performed(p, w.state.disk, c, io)[i].SaveJournal? {
      MomentPermitted(p, w, c, io, i);
      hide Inv, Permitted, Attempts, Performed, Moment, Orderly, Do;
      OrderlyFacts(p, Moment(p, w, c, io, i), Performed(p, w.state.disk, c, io)[i]);
    }
  }

  /** The write latches the committed transaction itself, not a new one that could not be saved. */
  predicate LatchesCommit(d: Disk, write: Write) {
    && write.SaveJournal? && d.journal.phase == Phase.Committed && write.state.phase == Phase.ManualRecovery
    && d.journal.tx.Some? && write.state.tx.Some? && write.state.tx.value.to == d.journal.tx.value.to
  }

  /** The one way a loadable disk becomes unloadable. */
  lemma OnlyLatchingACommitKills(p: Policy, w: World, c: Command, io: seq<Io>, i: nat)
    ensures Attempts(p, w, c, io, i) ==>
              var t := Moment(p, w, c, io, i); var write := Performed(p, w.state.disk, c, io)[i];
              Loads(p, t.disk) ==>
                (!Loads(p, Moment(p, w, c, io, i + 1).disk) <==> LatchesCommit(t.disk, write))
  {
    if Attempts(p, w, c, io, i) {
      MomentPermitted(p, w, c, io, i);
      var t := Moment(p, w, c, io, i);
      var write := Performed(p, w.state.disk, c, io)[i];
      hide Attempts, Performed, Moment, Loads, Inv, Permitted, Do, Begin;
      KillFacts(p, w.env, t, write);
    }
  }

  lemma LoadsIff(p: Policy, env: Env, t: State)
    requires Inv(p, env, t)
    ensures Loads(p, t.disk) <==> !Dead(t.disk.journal)
  {
    hide HistInv, Validate, Pointer, Chain, Snapshot;
  }

  lemma KillFacts(p: Policy, env: Env, t: State, write: Write)
    requires Inv(p, env, t) && Permitted(p, t, write) && Inv(p, env, Do(t, write))
    ensures Loads(p, t.disk) ==>
              (!Loads(p, Do(t, write).disk) <==> LatchesCommit(t.disk, write))
  {
    hide Inv, Loads;
    LoadsIff(p, env, t);
    LoadsIff(p, env, Do(t, write));
    if write.SaveJournal? {
      var a, b := t.disk.journal, Do(t, write).disk.journal;
      assert b.phase == write.state.phase && b.tx == write.state.tx;
      hide Evolves;
      if !Dead(a) {
        DeadMove(p, env, t, b);
      }
    } else {
      assert Do(t, write).disk.journal == t.disk.journal;
    }
  }

  lemma DeadMove(p: Policy, env: Env, t: State, b: Journal)
    requires Inv(p, env, t) && Evolves(t.disk.journal, b) && !Dead(t.disk.journal)
    ensures var a := t.disk.journal;
            Dead(b) <==> && a.phase == Phase.Committed && b.phase == Phase.ManualRecovery
                         && a.tx.Some? && b.tx.Some? && b.tx.value.to == a.tx.value.to
  {
    hide HistInv, TrustKept, RemoteValid, Snapshot, RemoteMove, ObjectsStored;
  }

  // ---- over runs ------------------------------------------------------------------------------------------------

  lemma {:induction false} ForwardWrites(p: Policy, env: Env, s: State, ws: seq<Write>)
    requires AllSafe(p, env, s, ws)
    ensures Forward(s.disk.journal, DoAll(s, ws).disk.journal)
    decreases |ws|
  {
    hide Inv, Snapshot, Earned;
    if ws != [] {
      assert Forward(s.disk.journal, Do(s, ws[0]).disk.journal);
      hide Permitted, Do;
      ForwardWrites(p, env, Do(s, ws[0]), ws[1..]);
    }
  }

  lemma {:induction false} ForwardRun(p: Policy, w: World, es: seq<Event>)
    requires ValidPolicy(p) && Inv(p, w.env, w.state) && AllOk(p, w, es)
    ensures Forward(w.state.disk.journal, StepAll(p, w, es).state.disk.journal)
    decreases |es|
  {
    hide Inv, ValidPolicy, EventOk, Performed;
    if es != [] {
      var v := Next(p, w, es[0]);
      StepKeeps(p, w, es[0]);
      if es[0].Run? {
        ForwardWrites(p, w.env, Started(p, w, es[0].command), Happened(p, w, es[0]));
        assert Started(p, w, es[0].command).disk == w.state.disk;
      }
      assert Forward(w.state.disk.journal, v.state.disk.journal);
      hide Next;
      ForwardRun(p, v, es[1..]);
    }
  }

  /** Floors, sequences, recorded roots and the failed list only ever grow, over any run. */
  lemma NothingIsForgotten(p: Policy, w: World, es: seq<Event>)
    ensures ValidPolicy(p) && Reachable(p, w) && AllOk(p, w, es) ==>
              Forward(w.state.disk.journal, StepAll(p, w, es).state.disk.journal)
  {
    if ValidPolicy(p) && Reachable(p, w) && AllOk(p, w, es) {
      ReachableInv(p, w);
      hide Inv, ValidPolicy, AllOk, StepAll, Forward;
      ForwardRun(p, w, es);
    }
  }

  lemma {:induction false} ReachableRun(p: Policy, w: World, es: seq<Event>)
    requires Reachable(p, w) && AllOk(p, w, es)
    ensures Reachable(p, StepAll(p, w, es))
    decreases |es|
  {
    hide Reachable, EventOk, Next;
    if es != [] {
      ReachableStep(p, w, es[0]);
      ReachableRun(p, Next(p, w, es[0]), es[1..]);
    }
  }

  /**
   * Once a rollback is journaled its target never comes back: no later transaction moves towards
   * that digest, and outside a rollback or a manual recovery `active` is never left on it, unless
   * the installed artifact happens to be the same bytes.
   */
  lemma RolledBackNeverReturns(p: Policy, w: World, es: seq<Event>)
    ensures ValidPolicy(p) && Reachable(p, w) && AllOk(p, w, es)
            && w.state.disk.journal.phase == Phase.RollbackIntent && w.state.disk.journal.tx.Some? ==>
              var bad := w.state.disk.journal.tx.value.to.digest;
              var d := StepAll(p, w, es).state.disk; var j := d.journal;
              && bad in j.failed
              && (j.phase in {Phase.Prepared, Phase.Stopping, Phase.Trial} ==> j.tx.Some? && j.tx.value.to.digest != bad)
              && (j.phase !in {Phase.RollbackIntent, Phase.ManualRecovery} && d.active == bad ==>
                    j.installed.digest == bad)
  {
    if ValidPolicy(p) && Reachable(p, w) && AllOk(p, w, es)
       && w.state.disk.journal.phase == Phase.RollbackIntent && w.state.disk.journal.tx.Some? {
      var v := StepAll(p, w, es);
      NothingIsForgotten(p, w, es);
      ReachableRun(p, w, es);
      TargetsNeverFailed(p, w);
      TargetsNeverFailed(p, v);
      PointerConsistent(p, v);
      RollbackAuthorised(p, v);
    }
  }
}
