/** Every journal write of the activation machine, taken alone, is permitted and keeps the invariant. */
module Saves {
  import opened Options
  import opened AgentUpdate
  import opened LocalPolicy
  import opened Trust
  import opened Journals
  import opened Disks
  import opened Hosts
  import opened Activate
  import opened Runtime
  import opened Worlds

  /** The same deal, or none on either side. */
  predicate Continued(a: Journal, b: Journal) {
    if a.tx.Some? then SameDeal(a, b) else b.tx.None?
  }

  /** What every lemma below needs of the journal on disk. */
  predicate Sane(a: Journal) {
    && a == Snapshot(a) && RemoteValid(a) && ValidChannel(a.channel)
    && (a.remote.Some? ==> a.remote.value.acceptedAt + UPDATE_COOLDOWN_SECS < LIMIT_53)
    && (a.phase == Phase.Stable ==> a.tx.None?)
  }

  /** A write that leaves the request record to `save` keeps it valid and truthful. */
  lemma RemoteStays(a: Journal, b: Journal)
    requires Sane(a) && b.remote == a.remote && b.channel == a.channel && ValidSequence(b.installed.sequence)
    requires Continued(a, b)
    requires a.phase == Phase.Committed ==> b.phase in {Phase.Committed, Phase.ManualRecovery}
    ensures Snapshot(b) == b.(remote := Snapshot(b).remote)
    ensures RemoteValid(Snapshot(b))
    ensures RemoteMove(a, Snapshot(b)) && !Accepts(a, Snapshot(b))
    ensures b.remote.Some? ==>
              && Snapshot(b).remote.value.request == b.remote.value.request
              && Snapshot(b).remote.value.acceptedAt == b.remote.value.acceptedAt
              && Snapshot(b).remote.value.target == b.remote.value.target
              && Snapshot(b).remote.value.status.targetSequence == b.remote.value.status.targetSequence
              && (Snapshot(b).remote.value.status.phase == UpdatePhase.Committed ==>
                    a.remote.value.status.phase == UpdatePhase.Committed
                    || (Owns(b) && b.phase == Phase.Committed))
  {
  }

  /** A move within an open transaction, as far as the journal alone is concerned. */
  predicate Moves(p: Policy, a: Journal, b: Journal) {
    && Open(a.phase) && a.tx.Some? && b.phase != Phase.Stable
    && b.remote == a.remote
    && SameScope(a, b) && SameTrust(a, b)
    && PhaseMove(a, b) && InstallMove(a, b)
    && |b.failed| <= FAILED_QUOTA
  }

  /** `sb` is how `b` reaches the disk. */
  predicate Lands(b: Journal, sb: Journal) {
    sb == b.(remote := sb.remote) && sb == Snapshot(sb) && RemoteValid(sb)
    && (b.remote.Some? <==> sb.remote.Some?)
    && (b.remote.Some? ==> sb.remote.value.acceptedAt == b.remote.value.acceptedAt)
  }

  lemma MoveLawful(p: Policy, a: Journal, b: Journal, sb: Journal)
    requires Lawful(p, a) && Moves(p, a, b) && Lands(b, sb)
    ensures Lawful(p, sb)
  {
    hide Snapshot, RemoteValid, ValidDigest;
    assert Validate(p, a);
    assert forall i | 0 <= i < |sb.failed| :: ValidDigest(sb.failed[i]) by {
      assert b.failed == a.failed || b.failed == a.failed + [a.tx.value.to.digest];
    }
    assert TransactionValid(sb);
    assert Validate(p, sb);
  }

  lemma MoveEvolves(p: Policy, a: Journal, b: Journal, sb: Journal)
    requires Lawful(p, a) && Moves(p, a, b) && Lands(b, sb) && RemoteMove(a, sb)
    ensures Evolves(a, sb)
  {
    hide Snapshot, RemoteValid, RemoteMove, ValidDigest;
    assert Validate(p, a);
  }

  /** The disk half: a move within an open transaction that points `active` rightly. */
  lemma MoveKeepsDisk(p: Policy, d: Disk, b: Journal)
    requires ValidPolicy(p) && DiskInv(p, d) && Moves(p, d.journal, b)
    requires Pointer(d.(journal := b))
    ensures DiskInv(p, Apply(d, SaveJournal(b)))
    ensures Evolves(d.journal, Snapshot(b)) && !Accepts(d.journal, Snapshot(b))
  {
    hide Snapshot, RemoteValid, RemoteMove, Accepts, Validate, Moves, DiskInv, Pointer, ValidPolicy, Evolves, Continued,
         Lawful, Sane;
    var a := d.journal;
    var sb := Snapshot(b);
    MoveFacts(p, d, b);
    RemoteStays(a, b);
    SnapshotParts(b);
    SnapshotIdempotent(b);
    MoveLawful(p, a, b, sb);
    MoveEvolves(p, a, b, sb);
    MoveDisk(p, d, b, sb);
  }

  lemma MoveFacts(p: Policy, d: Disk, b: Journal)
    requires ValidPolicy(p) && DiskInv(p, d) && Moves(p, d.journal, b)
    ensures var a := d.journal;
            && Sane(a) && Continued(a, b) && ValidSequence(b.installed.sequence) && Lawful(p, a)
            && b.remote == a.remote && b.channel == a.channel && a.phase != Phase.Committed
  {
    hide RemoteValid, TrustKept, Pointer, ObjectsStored, ValidDigest;
    hide Snapshot;
    assert TransactionValid(d.journal);
  }

  lemma MoveDisk(p: Policy, d: Disk, b: Journal, sb: Journal)
    requires DiskInv(p, d) && Moves(p, d.journal, b) && Pointer(d.(journal := b))
    requires Lawful(p, sb) && sb == b.(remote := sb.remote)
    ensures DiskInv(p, d.(journal := sb))
  {
    hide Lawful, Chain;
    var d' := d.(journal := sb);
    assert Pointer(d');
    assert TrustKept(p, d');
    assert ObjectsStored(d');
  }

  /** What the history remembers of such a move: neither a request nor a preparation. */
  lemma MoveRemembered(p: Policy, a: Journal, b: Journal, h: History)
    requires Moves(p, a, b) && !Accepts(a, Snapshot(b)) && b.phase != Phase.Prepared
    ensures var h' := Remember(h, a, Snapshot(b));
            && h' == h.(trial := h'.trial, note := None, stoppedAt := h'.stoppedAt, flipping := h'.flipping,
                        commits := h'.commits)
            && h'.trial == (if h.note.Some? then h.trial + [h.note.value] else h.trial)
            && h'.stoppedAt == (if b.phase == Phase.Stopping && a.phase != Phase.Stopping then h.sampledAt else h.stoppedAt)
            && (h'.flipping <==> h.flipping || (b.phase == Phase.Trial && a.phase != Phase.Trial))
            && h'.commits == (if b.phase == Phase.Committed then h.commits + {Commitment(b.installed, |h.accepted|)} else h.commits)
  {
    hide SameTrust, SameScope, ResultStatus;
    assert Snapshot(b) == b.(remote := Snapshot(b).remote);
    hide Snapshot;
  }

  /** The history half, apart from the barrier and the streak. */
  lemma MoveKeepsHistory(p: Policy, a: Journal, b: Journal, h: History)
    requires Sane(a) && RemoteStaysReady(a, b) && Moves(p, a, b) && b.phase != Phase.Prepared
    requires TransactionValid(a)
    requires FailedInv(a, h) && TruthInv(a, h) && AcceptedInv(a, h) && FailedInv(b, h)
    requires h.accepting ==> b.phase == Phase.ManualRecovery
    ensures var h' := Remember(h, a, Snapshot(b));
            FailedInv(Snapshot(b), h') && TruthInv(Snapshot(b), h') && AcceptedInv(Snapshot(b), h')
  {
    hide Snapshot, Remember, RemoteValid, ValidRequest, ResultStatus, RemoteMove, Moves, TransactionValid, FailedInv, TruthInv,
         AcceptedInv;
    MoveFailed(p, a, b, h);
    MoveTruth(p, a, b, h);
    MoveAccepted(p, a, b, h);
  }

  lemma MoveFailed(p: Policy, a: Journal, b: Journal, h: History)
    requires Sane(a) && RemoteStaysReady(a, b) && Moves(p, a, b) && b.phase != Phase.Prepared && FailedInv(b, h)
    ensures FailedInv(Snapshot(b), Remember(h, a, Snapshot(b)))
  {
    RemoteStays(a, b);
    MoveRemembered(p, a, b, h);
    hide Snapshot, Remember, RemoteValid, RemoteMove, Moves;
  }

  lemma MoveTruth(p: Policy, a: Journal, b: Journal, h: History)
    requires Sane(a) && RemoteStaysReady(a, b) && Moves(p, a, b) && b.phase != Phase.Prepared && TransactionValid(a)
    requires TruthInv(a, h) && (h.accepting ==> b.phase == Phase.ManualRecovery)
    ensures TruthInv(Snapshot(b), Remember(h, a, Snapshot(b)))
  {
    RemoteStays(a, b);
    MoveRemembered(p, a, b, h);
    hide Snapshot, Remember, RemoteValid, ValidRequest, ResultStatus, RemoteMove;
  }

  lemma MoveAccepted(p: Policy, a: Journal, b: Journal, h: History)
    requires Sane(a) && RemoteStaysReady(a, b) && Moves(p, a, b) && b.phase != Phase.Prepared && AcceptedInv(a, h)
    ensures AcceptedInv(Snapshot(b), Remember(h, a, Snapshot(b)))
  {
    RemoteStays(a, b);
    MoveRemembered(p, a, b, h);
    hide Snapshot, Remember, RemoteValid, ValidRequest, RemoteMove;
  }

  predicate RemoteStaysReady(a: Journal, b: Journal) {
    && b.remote == a.remote && b.channel == a.channel && ValidSequence(b.installed.sequence)
    && Continued(a, b)
    && (a.phase == Phase.Committed ==> b.phase in {Phase.Committed, Phase.ManualRecovery})
  }

  // ---- the individual writes ----------------------------------------------------------------------

  /** Everything about a move except the barrier and the streak it leaves behind. */
  lemma MoveSaved(p: Policy, env: Env, s: State, b: Journal)
    requires ValidPolicy(p) && Inv(p, env, s) && Moves(p, s.disk.journal, b) && b.phase != Phase.Prepared
    requires Pointer(s.disk.(journal := b)) && FailedInv(b, s.hist)
    requires s.hist.accepting ==> b.phase == Phase.ManualRecovery
    requires var h' := Remember(s.hist, s.disk.journal, Snapshot(b));
             BarrierInv(env, b, h') && StreakInv(b, h')
    ensures Evolves(s.disk.journal, Snapshot(b))
    ensures b.phase != Phase.Committed ==> Permitted(p, s, SaveJournal(b))
    ensures Inv(p, env, Do(s, SaveJournal(b)))
  {
    hide Snapshot, Validate, ValidPolicy, RemoteValid, Pointer, FailedInv, TruthInv, AcceptedInv, Remember, BarrierInv,
         StreakInv, TrustKept, Lawful, ObjectsStored, Moves, Evolves, DiskInv, Sane, RemoteStaysReady, Continued;
    var a := s.disk.journal;
    MoveFacts(p, s.disk, b);
    MoveReady(p, a, b);
    MoveKeepsDisk(p, s.disk, b);
    MoveKeepsHistory(p, a, b, s.hist);
    SnapshotParts(b);
    MovedInv(p, env, s, b);
  }

  lemma SnapshotParts(b: Journal)
    ensures Snapshot(b) == b.(remote := Snapshot(b).remote) && (b.remote.Some? <==> Snapshot(b).remote.Some?)
  {
  }

  lemma MoveReady(p: Policy, a: Journal, b: Journal)
    requires Lawful(p, a) && Moves(p, a, b) && Continued(a, b) && ValidSequence(b.installed.sequence) && b.channel == a.channel
    ensures RemoteStaysReady(a, b) && TransactionValid(a) && !Dead(a) && Open(a.phase)
  {
    hide RemoteValid, Snapshot;
  }

  /** The pieces put together. */
  lemma MovedInv(p: Policy, env: Env, s: State, b: Journal)
    requires DiskInv(p, Apply(s.disk, SaveJournal(b))) && Evolves(s.disk.journal, Snapshot(b))
    requires Snapshot(b) == b.(remote := Snapshot(b).remote)
    requires var h' := Remember(s.hist, s.disk.journal, Snapshot(b));
             && FailedInv(Snapshot(b), h') && TruthInv(Snapshot(b), h') && AcceptedInv(Snapshot(b), h')
             && BarrierInv(env, b, h') && StreakInv(b, h')
    ensures b.phase != Phase.Committed ==> Permitted(p, s, SaveJournal(b))
    ensures Inv(p, env, Do(s, SaveJournal(b)))
  {
    hide Snapshot, FailedInv, TruthInv, AcceptedInv, Remember, DiskInv, Evolves;
  }

  /** Moves that leave the barrier behind: out of the transaction, or into its rollback. */
  lemma Leaves(p: Policy, env: Env, s: State, b: Journal)
    requires ValidPolicy(p) && Inv(p, env, s) && Moves(p, s.disk.journal, b)
    requires b.phase in {Phase.RolledBack, Phase.RollbackIntent, Phase.ManualRecovery, Phase.Committed}
    requires Pointer(s.disk.(journal := b)) && FailedInv(b, s.hist)
    requires s.hist.accepting ==> b.phase == Phase.ManualRecovery
    requires b.tx.value.boot == s.disk.journal.tx.value.boot || (!s.hist.flipping && b.tx.value.boot in env.boots)
    ensures Evolves(s.disk.journal, Snapshot(b))
    ensures b.phase != Phase.Committed ==> Permitted(p, s, SaveJournal(b))
    ensures Inv(p, env, Do(s, SaveJournal(b)))
  {
    var a := s.disk.journal;
    assert !Accepts(a, Snapshot(b)) && Snapshot(b).phase == b.phase;
    assert BarrierInv(env, b, Remember(s.hist, a, Snapshot(b))) by {
      assert BarrierInv(env, a, s.hist);
      MoveRemembered(p, a, b, s.hist);
      hide Snapshot, Validate, ValidPolicy, RemoteValid, Pointer, FailedInv, TruthInv, AcceptedInv, Remember,
           TrustKept, Lawful, ObjectsStored;
    }
    MoveSaved(p, env, s, b);
  }

  /** `prepared` moves on: the preflight completed after the sample, and the stop unit is sampled. */
  lemma StoppingSaved(p: Policy, env: Env, s: State, h: Host, b: Journal)
    requires ValidPolicy(p) && Inv(p, env, s) && HostOk(env, h)
    requires var a := s.disk.journal;
             && a.phase == Phase.Prepared && h.boot == Some(a.tx.value.boot) && h.probe.Some? && h.stop.Some?
             && Completed(h.probe.value, a.tx.value.bridgeExit)
             && h.probe.value.result == "success" && h.probe.value.activeState == "active"
             && b == a.(phase := Phase.Stopping, tx := b.tx) && b.tx.Some?
             && b.tx.value == a.tx.value.(bridgeExit := h.stop.value.exit, deadline := b.tx.value.deadline)
    requires s.hist.sampledAt == |env.log| && s.hist.note.None? && !s.hist.flipping && !s.hist.accepting
    ensures Evolves(s.disk.journal, Snapshot(b))
    ensures b.phase != Phase.Committed ==> Permitted(p, s, SaveJournal(b))
    ensures Inv(p, env, Do(s, SaveJournal(b)))
  {
    var a := s.disk.journal;
    var hist := s.hist;
    var boot := a.tx.value.boot;
    assert !Accepts(a, Snapshot(b)) && Snapshot(b).phase == b.phase;
    assert Moves(p, a, b) && Pointer(s.disk.(journal := b)) && FailedInv(b, hist) by {
      hide Snapshot, RemoteValid, BarrierInv, StreakInv, TruthInv, AcceptedInv, TrustKept;
    }
    var h' := Remember(hist, a, Snapshot(b));
    assert BarrierInv(env, b, h') && StreakInv(b, h') by {
      assert BarrierInv(env, a, hist) && StreakInv(a, hist);
      MoveRemembered(p, a, b, hist);
      hide Snapshot, Validate, ValidPolicy, RemoteValid, Pointer, FailedInv, TruthInv, AcceptedInv, Remember,
           TrustKept, Lawful, ObjectsStored, Moves;
      assert SampleFresh(env, PreflightUnit, a.tx.value.bridgeExit, hist.preparedAt);
      assert Succeeded(env.log, PreflightUnit, boot, h'.preparedAt, h'.stoppedAt);
      assert SampleFresh(env, StopUnit, b.tx.value.bridgeExit, h'.stoppedAt);
    }
    MoveSaved(p, env, s, b);
  }

  /** `stopping` moves on: the stop completed after its sample and nothing of the agent is left. */
  lemma TrialSaved(p: Policy, env: Env, s: State, h: Host, b: Journal)
    requires ValidPolicy(p) && Inv(p, env, s) && HostOk(env, h)
    requires var a := s.disk.journal;
             && a.phase == Phase.Stopping && h.boot == Some(a.tx.value.boot) && h.stop.Some?
             && Completed(h.stop.value, a.tx.value.bridgeExit)
             && h.stop.value.result == "success" && h.stop.value.activeState == "inactive"
             && b == a.(phase := Phase.Trial, tx := b.tx) && b.tx.Some?
             && b.tx.value == a.tx.value.(deadline := b.tx.value.deadline)
    requires s.hist.quiet && s.hist.note.None? && !s.hist.accepting
    ensures Evolves(s.disk.journal, Snapshot(b))
    ensures b.phase != Phase.Committed ==> Permitted(p, s, SaveJournal(b))
    ensures Inv(p, env, Do(s, SaveJournal(b)))
    ensures Do(s, SaveJournal(b)).hist.flipping
  {
    var a := s.disk.journal;
    var hist := s.hist;
    var boot := a.tx.value.boot;
    assert !Accepts(a, Snapshot(b)) && Snapshot(b).phase == b.phase;
    assert Moves(p, a, b) && Pointer(s.disk.(journal := b)) && FailedInv(b, hist) by {
      hide Snapshot, RemoteValid, BarrierInv, StreakInv, TruthInv, AcceptedInv, TrustKept;
    }
    var h' := Remember(hist, a, Snapshot(b));
    assert BarrierInv(env, b, h') && StreakInv(b, h') && h'.flipping by {
      assert BarrierInv(env, a, hist) && StreakInv(a, hist);
      MoveRemembered(p, a, b, hist);
      hide Snapshot, Validate, ValidPolicy, RemoteValid, Pointer, FailedInv, TruthInv, AcceptedInv, Remember,
           TrustKept, Lawful, ObjectsStored, Moves;
      assert SampleFresh(env, StopUnit, a.tx.value.bridgeExit, hist.stoppedAt);
      assert Succeeded(env.log, StopUnit, boot, h'.stoppedAt, |env.log|);
      assert Barrier(env, h', boot);
    }
    MoveSaved(p, env, s, b);
  }

  /** The observation of the running tick, as `trial` made it. */
  predicate Noted(tx: Transaction, o: Observation) {
    && o.boot == tx.boot
    && (o.evidence.Some? ==>
          && o.evidence.value.invocation != tx.oldInvocation && o.evidence == o.sight.file
          && Convinces(o.evidence.value, o.sight, tx.to.digest))
  }

  /** Appending a convincing tick continues a recorded streak. */
  lemma StreakContinues(tx: Transaction, trial: seq<Observation>, o: Observation, k: nat)
    requires tx.stableInvocation.Some? && tx.stableSince.Some? && tx.stableSample.Some?
    requires Records(tx, trial, k) && Convincing(tx, o, tx.stableInvocation.value)
    ensures Records(tx, trial + [o], k)
  {
    var longer := trial + [o];
    forall i | k <= i < |longer| ensures Convincing(tx, longer[i], tx.stableInvocation.value) {
      if i < |trial| {
        assert longer[i] == trial[i];
      }
    }
  }

  /** A streak begins or is forgotten. */
  lemma StreakSaved(p: Policy, env: Env, s: State, o: Observation, b: Journal)
    requires ValidPolicy(p) && Inv(p, env, s)
    requires var a := s.disk.journal;
             && a.phase == Phase.Trial && Noted(a.tx.value, o)
             && var v := Judge(a.tx.value, o.evidence, o.now, p);
                (v.Restart? || v.Forget?) && b == Judged(a, v)
    requires s.hist.note == Some(o) && !s.hist.flipping && !s.hist.accepting
    ensures Evolves(s.disk.journal, Snapshot(b))
    ensures b.phase != Phase.Committed ==> Permitted(p, s, SaveJournal(b))
    ensures Inv(p, env, Do(s, SaveJournal(b)))
  {
    hide Snapshot, Validate, ValidPolicy, RemoteValid, TruthInv, AcceptedInv, Remember, TrustKept, Lawful, ObjectsStored,
         Moves, Pointer, FailedInv, BarrierInv, StreakInv, Judge, Noted, Evolves, Permitted, Judged, Inv;
    StreakMoves(p, env, s, o, b);
    StreakHistory(p, env, s.disk.journal, s.hist, o, b);
    MoveSaved(p, env, s, b);
  }

  lemma StreakMoves(p: Policy, env: Env, s: State, o: Observation, b: Journal)
    requires Inv(p, env, s) && s.disk.journal.phase == Phase.Trial
    requires var v := Judge(s.disk.journal.tx.value, o.evidence, o.now, p);
             (v.Restart? || v.Forget?) && b == Judged(s.disk.journal, v)
    ensures var a := s.disk.journal;
            && Moves(p, a, b) && Pointer(s.disk.(journal := b)) && FailedInv(b, s.hist)
            && !Accepts(a, Snapshot(b)) && BarrierInv(env, a, s.hist) && a.tx.Some? && b.phase == Phase.Trial
  {
    hide RemoteValid, BarrierInv, StreakInv, TruthInv, AcceptedInv, TrustKept;
    assert !Accepts(s.disk.journal, Snapshot(b));
    hide Snapshot;
  }

  lemma StreakHistory(p: Policy, env: Env, a: Journal, h: History, o: Observation, b: Journal)
    requires Moves(p, a, b) && !Accepts(a, Snapshot(b)) && b.phase == Phase.Trial && a.phase == Phase.Trial && a.tx.Some?
    requires BarrierInv(env, a, h) && Noted(a.tx.value, o) && h.note == Some(o)
    requires var v := Judge(a.tx.value, o.evidence, o.now, p); (v.Restart? || v.Forget?) && b == Judged(a, v)
    ensures var h' := Remember(h, a, Snapshot(b)); BarrierInv(env, b, h') && StreakInv(b, h')
  {
    MoveRemembered(p, a, b, h);
    hide Snapshot, Remember, Moves, Accepts;
    var h' := Remember(h, a, Snapshot(b));
    var tx := b.tx.value;
    if tx.stableInvocation.Some? {
      assert h'.trial[|h.trial|] == o;
      assert Records(tx, h'.trial, |h.trial|);
    }
  }

  /** A commit is earned by the recorded streak, this tick included. */
  lemma CommitEarned(p: Policy, a: Journal, h: History, o: Observation)
    requires a.phase == Phase.Trial && a.tx.Some? && Noted(a.tx.value, o) && StreakInv(a, h)
    requires Judge(a.tx.value, o.evidence, o.now, p).Commit?
    ensures Earned(p, a.tx.value, h.trial + [o])
  {
    var tx := a.tx.value;
    var k: nat :| Records(tx, h.trial, k);
    StreakContinues(tx, h.trial, o, k);
    assert (h.trial + [o])[k] == h.trial[k];
    assert Earns(p, tx, h.trial + [o], k, tx.stableInvocation.value);
  }

  lemma CommitMoves(p: Policy, d: Disk, h: History, b: Journal)
    requires DiskInv(p, d) && FailedInv(d.journal, h)
    requires d.journal.phase == Phase.Trial && b == Judged(d.journal, Verdict.Commit)
    requires d.active == d.journal.tx.value.to.digest
    ensures Moves(p, d.journal, b) && Pointer(d.(journal := b)) && FailedInv(b, h)
    ensures !Accepts(d.journal, Snapshot(b))
  {
    hide RemoteValid, TrustKept;
  }

  lemma CommitSaved(p: Policy, env: Env, s: State, o: Observation, b: Journal)
    requires ValidPolicy(p) && Inv(p, env, s)
    requires var a := s.disk.journal;
             && a.phase == Phase.Trial && Noted(a.tx.value, o)
             && Judge(a.tx.value, o.evidence, o.now, p).Commit? && b == Judged(a, Verdict.Commit)
             && s.disk.active == a.tx.value.to.digest
    requires s.hist.note == Some(o) && !s.hist.flipping && !s.hist.accepting
    ensures Permitted(p, s, SaveJournal(b))
    ensures Inv(p, env, Do(s, SaveJournal(b)))
  {
    var a := s.disk.journal;
    CommitMoves(p, s.disk, s.hist, b);
    assert Earned(p, a.tx.value, Do(s, SaveJournal(b)).hist.trial) by {
      CommitEarned(p, a, s.hist, o);
      MoveRemembered(p, a, b, s.hist);
      hide Inv, Evolves, Moves, Snapshot, Remember, Earned;
    }
    hide Evolves, Snapshot, Remember, Earned, DiskInv, HistInv, Moves, Pointer, FailedInv;
    Leaves(p, env, s, b);
  }

  // ---- writes from memory ---------------------------------------------------------------------------

  /** The journal in memory keeps its old status record; what reaches the disk is the same. */
  lemma SavedFromMemory(m: Journal, b: Journal)
    requires b.remote == m.remote && b.channel == m.channel
    requires Continued(m, b) && (b.phase == Phase.Stable ==> m.phase == Phase.Stable)
    ensures Snapshot(b.(remote := Snapshot(m).remote)) == Snapshot(b)
  {
  }

  /** `Leaves`, from a journal in memory that was the last one saved. */
  lemma LeavesFrom(p: Policy, env: Env, s: State, m: Journal, b: Journal)
    requires ValidPolicy(p) && Inv(p, env, s) && s.disk.journal == Snapshot(m) && Moves(p, m, b)
    requires b.phase in {Phase.RolledBack, Phase.RollbackIntent, Phase.ManualRecovery}
    requires Pointer(s.disk.(journal := b)) && FailedInv(b, s.hist)
    requires s.hist.accepting ==> b.phase == Phase.ManualRecovery
    requires b.tx.value.boot == m.tx.value.boot || (!s.hist.flipping && b.tx.value.boot in env.boots)
    ensures Permitted(p, s, SaveJournal(b))
    ensures Inv(p, env, Do(s, SaveJournal(b)))
  {
    hide Inv, Snapshot, Moves, Pointer, FailedInv, Do, Evolves, ValidPolicy, Permitted;
    var b' := b.(remote := s.disk.journal.remote);
    DiskForm(p, s, m, b);
    Leaves(p, env, s, b');
    SameWrite(p, s, b, b');
  }

  /** A move from memory, as one from the journal on disk. */
  lemma DiskForm(p: Policy, s: State, m: Journal, b: Journal)
    requires s.disk.journal == Snapshot(m) && Moves(p, m, b)
    requires Pointer(s.disk.(journal := b)) && FailedInv(b, s.hist)
    ensures var a := s.disk.journal; var b' := b.(remote := a.remote);
            && Moves(p, a, b') && Pointer(s.disk.(journal := b')) && FailedInv(b', s.hist)
            && a.tx == m.tx && Snapshot(b') == Snapshot(b)
  {
    SavedFromMemory(m, b);
    assert s.disk.journal == m.(remote := s.disk.journal.remote);
    hide Snapshot;
  }

  /** Two journals with the same stored form and phase are the same write. */
  lemma SameWrite(p: Policy, s: State, b: Journal, b': Journal)
    requires Snapshot(b) == Snapshot(b') && b.phase == b'.phase
    ensures Do(s, SaveJournal(b)) == Do(s, SaveJournal(b'))
    ensures Permitted(p, s, SaveJournal(b')) ==> Permitted(p, s, SaveJournal(b))
  {
    hide Evolves, Earned, Snapshot, Remember;
  }

  /** In memory, a transaction as the disk has it, except for its bookkeeping. */
  predicate Near(m: Journal, mem: Journal) {
    && mem == m.(phase := mem.phase, tx := mem.tx, failed := mem.failed)
    && SameDeal(m, mem) && mem.tx.value.boot == m.tx.value.boot
    && (mem.failed == m.failed
        || (m.phase in {Phase.Prepared, Phase.Trial} && mem.failed == m.failed + [m.tx.value.to.digest]))
  }

  predicate Rebooted(env: Env, m: Journal, mem: Journal) {
    mem.tx.Some? && m.tx.Some? && mem.tx.value.boot in env.boots
    && Near(m, mem.(tx := Some(mem.tx.value.(boot := m.tx.value.boot))))
  }

  lemma LatchMoves(p: Policy, env: Env, d: Disk, h: History, m: Journal, mem: Journal)
    requires Lawful(p, d.journal) && FailedInv(d.journal, h) && d.journal == Snapshot(m) && Open(m.phase)
    requires Near(m, mem) || Rebooted(env, m, mem)
    ensures var b := Latched(mem);
            && Moves(p, m, b) && Pointer(d.(journal := b)) && FailedInv(b, h)
            && (Near(m, mem) ==> b.tx.value.boot == m.tx.value.boot)
            && (Rebooted(env, m, mem) ==> b.tx.value.boot in env.boots)
  {
    assert m.installed == Snapshot(m).installed && m.failed == Snapshot(m).failed && m.tx == Snapshot(m).tx;
    hide RemoteValid;
  }

  /** Latching an open transaction from memory. */
  lemma LatchNear(p: Policy, env: Env, s: State, m: Journal, mem: Journal)
    requires ValidPolicy(p) && Inv(p, env, s) && s.disk.journal == Snapshot(m) && Open(m.phase)
    requires Near(m, mem) || (!s.hist.flipping && Rebooted(env, m, mem))
    ensures Permitted(p, s, SaveJournal(Latched(mem)))
    ensures Inv(p, env, Do(s, SaveJournal(Latched(mem))))
  {
    var b := Latched(mem);
    assert Lawful(p, s.disk.journal) && FailedInv(s.disk.journal, s.hist);
    hide Inv, Snapshot, Moves, Pointer, FailedInv, Lawful, Do, Permitted, Near, Rebooted;
    LatchMoves(p, env, s.disk, s.hist, m, mem);
    LeavesFrom(p, env, s, m, b);
  }

  // ---- terminal journals ------------------------------------------------------------------------------

  lemma TerminalLatchLawful(p: Policy, d: Disk, sb: Journal)
    requires DiskInv(p, d) && Terminal(d.journal.phase)
    requires Lands(Latched(d.journal), sb)
    ensures Lawful(p, sb)
  {
    var a := d.journal;
    hide Snapshot, RemoteValid, ValidDigest, TrustKept;
    assert Validate(p, a);
    assert a.phase == Phase.Committed ==> Dead(sb);
    if a.phase != Phase.Committed {
      assert TransactionValid(sb);
    }
  }

  /** Latching a settled journal: a committed one becomes unloadable, any other stays loadable. */
  lemma LatchTerminal(p: Policy, env: Env, s: State, m: Journal)
    requires ValidPolicy(p) && Inv(p, env, s) && s.disk.journal == Snapshot(m) && Terminal(m.phase)
    ensures Permitted(p, s, SaveJournal(Latched(m)))
    ensures Inv(p, env, Do(s, SaveJournal(Latched(m))))
  {
    var a := s.disk.journal;
    var b := Latched(a);
    assert a == m.(remote := a.remote) && Continued(m, Latched(m)) && Continued(a, b);
    SavedFromMemory(m, Latched(m));
    assert Snapshot(b) == Snapshot(Latched(m));
    assert Sane(a) && ValidSequence(b.installed.sequence) by {
      hide BarrierInv, StreakInv, FailedInv, TruthInv, AcceptedInv, TrustKept;
    }
    LatchTerminalSaved(p, env, s);
    assert Do(s, SaveJournal(b)) == Do(s, SaveJournal(Latched(m)));
  }

  /** A write between transactions: only trust, the request and a latch may change. */
  predicate Between(a: Journal, sb: Journal) {
    && Terminal(a.phase) && sb.phase in {a.phase, Phase.ManualRecovery}
    && sb.tx == a.tx && sb.installed == a.installed && sb.failed == a.failed
    && SameScope(a, sb)
  }

  lemma BetweenEvolves(p: Policy, a: Journal, sb: Journal)
    requires Between(a, sb) && Forward(a, sb) && RemoteMove(a, sb)
    ensures Evolves(a, sb)
  {
    hide Forward, RemoteMove;
  }

  lemma BetweenRemembered(a: Journal, sb: Journal, h: History)
    requires Between(a, sb)
    ensures var h' := Remember(h, a, sb);
            && h' == h.(trial := h'.trial, note := None, accepted := h'.accepted, accepting := h'.accepting)
            && h'.accepting == (h.accepting || Accepts(a, sb))
            && h'.accepted == (if Accepts(a, sb)
                               then h.accepted + [Acceptance(sb.remote.value.request, sb.remote.value.acceptedAt)]
                               else h.accepted)
  {
  }

  lemma BetweenHistory(p: Policy, env: Env, a: Journal, sb: Journal, h: History)
    requires Between(a, sb) && BarrierInv(env, a, h) && FailedInv(a, h)
    ensures var h' := Remember(h, a, sb);
            BarrierInv(env, sb, h') && StreakInv(sb, h') && FailedInv(sb, h')
  {
    BetweenRemembered(a, sb, h);
    hide Remember, Accepts;
  }

  /** Every write between transactions, given what it does to trust and to the request. */
  lemma BetweenSaved(p: Policy, env: Env, s: State, b: Journal)
    requires Inv(p, env, s) && Between(s.disk.journal, Snapshot(b)) && b.phase == Snapshot(b).phase
    requires Lawful(p, Snapshot(b)) && TrustKept(p, Apply(s.disk, SaveJournal(b)))
    requires Forward(s.disk.journal, Snapshot(b)) && RemoteMove(s.disk.journal, Snapshot(b))
    requires var h' := Remember(s.hist, s.disk.journal, Snapshot(b));
             TruthInv(Snapshot(b), h') && AcceptedInv(Snapshot(b), h')
    ensures Permitted(p, s, SaveJournal(b)) && Inv(p, env, Do(s, SaveJournal(b)))
  {
    var a := s.disk.journal;
    var sb := Snapshot(b);
    BetweenEvolves(p, a, sb);
    BetweenHistory(p, env, a, sb, s.hist);
    hide Snapshot, Lawful, TrustKept, Remember, TruthInv, AcceptedInv, BarrierInv, StreakInv, FailedInv, Forward,
         RemoteMove, Evolves;
  }

  /** A write between transactions that leaves the request alone leaves its report truthful. */
  lemma BetweenTruth(a: Journal, b: Journal, h: History)
    requires Sane(a) && b.remote == a.remote && ValidSequence(b.installed.sequence)
    requires Between(a, Snapshot(b)) && TruthInv(a, h) && AcceptedInv(a, h)
    ensures Snapshot(b) == b.(remote := Snapshot(b).remote) && Snapshot(b) == Snapshot(Snapshot(b))
    ensures RemoteValid(Snapshot(b)) && RemoteMove(a, Snapshot(b))
    ensures b.remote.Some? ==> Snapshot(b).remote.Some?
                               && Snapshot(b).remote.value.acceptedAt == b.remote.value.acceptedAt
    ensures var h' := Remember(h, a, Snapshot(b));
            TruthInv(Snapshot(b), h') && AcceptedInv(Snapshot(b), h')
  {
    RemoteStays(a, b);
    SnapshotIdempotent(b);
    BetweenRemembered(a, Snapshot(b), h);
    hide Snapshot, RemoteValid, ResultStatus, Remember;
  }

  lemma LatchBetween(p: Policy, env: Env, s: State)
    requires Inv(p, env, s) && Terminal(s.disk.journal.phase)
    ensures var a := s.disk.journal; var b := Latched(a);
            && Between(a, Snapshot(b)) && b.remote == a.remote && b.phase == Snapshot(b).phase
            && DiskInv(p, s.disk) && TruthInv(a, s.hist) && AcceptedInv(a, s.hist) && b.installed == a.installed
  {
    hide DiskInv, BarrierInv, StreakInv, FailedInv, TruthInv, AcceptedInv;
  }

  lemma LatchTrust(p: Policy, d: Disk, sb: Journal)
    requires DiskInv(p, d) && sb == Latched(d.journal).(remote := sb.remote)
    ensures Forward(d.journal, sb) && TrustKept(p, d.(journal := sb))
  {
    hide Lawful, Pointer, Chain;
  }

  lemma LatchTerminalSaved(p: Policy, env: Env, s: State)
    requires ValidPolicy(p) && Inv(p, env, s) && Terminal(s.disk.journal.phase)
    requires Sane(s.disk.journal) && ValidSequence(s.disk.journal.installed.sequence)
    ensures Permitted(p, s, SaveJournal(Latched(s.disk.journal)))
    ensures Inv(p, env, Do(s, SaveJournal(Latched(s.disk.journal))))
  {
    hide Snapshot, RemoteValid, Validate, ValidPolicy, Lawful, Chain, Sane, Remember, RemoteMove, TruthInv, AcceptedInv,
         Forward, TrustKept, DiskInv, HistInv, Between, Permitted;
    var a := s.disk.journal;
    var b := Latched(a);
    LatchBetween(p, env, s);
    BetweenTruth(a, b, s.hist);
    SnapshotParts(b);
    TerminalLatchLawful(p, s.disk, Snapshot(b));
    LatchTrust(p, s.disk, Snapshot(b));
    BetweenSaved(p, env, s, b);
  }
}
