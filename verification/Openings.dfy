/** Opening a transaction, from a journal in memory that was the last one saved. */
module Openings {
  import opened AgentUpdate
  import opened LocalPolicy
  import opened Trust
  import opened Journals
  import opened Disks
  import opened Hosts
  import opened Activate
  import opened Download
  import opened Runtime
  import opened Worlds
  import opened Safety
  import opened Saves
  import opened Phases

  /** The journal that opens a transaction towards `to`, prepared or already latched. */
  predicate Opening(p: Policy, env: Env, m: Journal, b: Journal, to: Artifact) {
    && MayPrepare(m, p, to) && to == Candidate(m)
    && b.phase in {Phase.Prepared, Phase.ManualRecovery}
    && b.tx.Some?
    && b == Bind(m, to).(phase := b.phase, tx := b.tx)
    && var tx := b.tx.value;
       && tx.from == m.installed && tx.to == to && tx.boot == env.boot
       && PreflightUnit in env.units && tx.bridgeExit == env.units[PreflightUnit].exit
       && tx.stableSince.None? && tx.stableInvocation.None?
  }

  /** The disk the transaction is opened on. */
  ghost predicate Readied(env: Env, s: State, m: Journal, to: Artifact) {
    && s.disk.journal == m && m == Snapshot(m) && Terminal(m.phase)
    && s.hist.note.None? && !s.hist.flipping && s.hist.sampledAt == |env.log|
    && s.disk.active == m.installed.digest && to.digest in s.disk.objects
  }

  lemma OpeningRemote(p: Policy, env: Env, m: Journal, b: Journal, to: Artifact)
    requires Opening(p, env, m, b, to) && Terminal(m.phase) && ValidArtifact(to) && ValidChannel(m.channel)
    requires ValidSequence(m.installed.sequence)
    requires RemoteValid(m) && m == Snapshot(m)
    requires m.remote.Some? ==> m.remote.value.acceptedAt + UPDATE_COOLDOWN_SECS < LIMIT_53
    requires m.remote.Some? && m.remote.value.status.phase == UpdatePhase.Committed ==>
               m.remote.value.status.targetSequence.Some?
               && m.remote.value.status.targetSequence.value <= m.installed.sequence
    ensures RemoteValid(Snapshot(b)) && RemoteMove(Snapshot(m), Snapshot(b)) && !Accepts(Snapshot(m), Snapshot(b))
    ensures Snapshot(b) == m.(remote := Snapshot(b).remote, phase := b.phase, tx := b.tx)
    ensures Snapshot(b) == Snapshot(Snapshot(b))
    ensures b.remote.Some? ==> m.remote.Some? && b.remote.value.acceptedAt == m.remote.value.acceptedAt
    ensures Snapshot(b).remote.Some? <==> Snapshot(m).remote.Some?
    ensures Snapshot(b).remote.Some? ==>
              var now, was := Snapshot(b).remote.value, Snapshot(m).remote.value;
              && now.request == was.request && now.acceptedAt == was.acceptedAt
              && (now.status.phase == UpdatePhase.Committed ==>
                    was.status.phase == UpdatePhase.Committed && now.target == was.target
                    && now.status.targetSequence == was.status.targetSequence)
  {
    hide ValidDigest, ValidRequest;
  }

  lemma OpeningLawful(p: Policy, env: Env, m: Journal, b: Journal, to: Artifact, sa: Journal, sb: Journal)
    requires Lawful(p, sa) && sa == m.(remote := sa.remote) && Opening(p, env, m, b, to) && Terminal(m.phase)
    requires sb == m.(remote := sb.remote, phase := b.phase, tx := b.tx) && sb == Snapshot(sb) && RemoteValid(sb)
    requires sb.remote.Some? ==> sa.remote.Some? && sb.remote.value.acceptedAt == sa.remote.value.acceptedAt
    ensures Lawful(p, sb) && ValidArtifact(to)
  {
    hide Snapshot, RemoteValid, ValidDigest, Bind;
    assert Validate(p, sa);
    assert TransactionValid(sb);
  }

  lemma OpeningEvolves(p: Policy, env: Env, m: Journal, b: Journal, to: Artifact, sa: Journal, sb: Journal)
    requires Opening(p, env, m, b, to) && Terminal(m.phase) && RemoteMove(sa, sb)
    requires sa == m.(remote := sa.remote) && sb == m.(remote := sb.remote, phase := b.phase, tx := b.tx)
    ensures Evolves(sa, sb)
  {
    hide RemoteMove, Bind;
    assert Starts(sa, sb);
  }

  /** What the history keeps of it. */
  lemma OpeningRemembered(sa: Journal, sb: Journal, h: History)
    requires !Accepts(sa, sb) && Terminal(sa.phase) && sb.phase in {Phase.Prepared, Phase.ManualRecovery}
    requires h.note.None?
    ensures Remember(h, sa, sb)
            == if Begins(sa, sb) then h.(preparedAt := h.sampledAt, trial := [], failedBase := sa.failed) else h
  {
    hide Accepts;
  }

  lemma OpeningHistory(p: Policy, env: Env, m: Journal, b: Journal, to: Artifact, sa: Journal, sb: Journal, h: History)
    requires Opening(p, env, m, b, to) && Terminal(m.phase)
    requires sa == m.(remote := sa.remote) && sb == m.(remote := sb.remote, phase := b.phase, tx := b.tx)
    requires !Accepts(sa, sb) && h.note.None? && !h.flipping && h.sampledAt == |env.log|
    requires BarrierInv(env, sa, h) && FailedInv(sa, h)
    ensures var h' := Remember(h, sa, sb);
            BarrierInv(env, sb, h') && StreakInv(sb, h') && FailedInv(sb, h')
  {
    OpeningRemembered(sa, sb, h);
    hide Remember, Accepts, Bind, ValidDigest;
  }

  lemma OpeningTruth(sa: Journal, sb: Journal, h: History)
    requires !Accepts(sa, sb) && Terminal(sa.phase) && sb.phase in {Phase.Prepared, Phase.ManualRecovery}
    requires h.note.None? && TruthInv(sa, h) && AcceptedInv(sa, h)
    requires sb.installed == sa.installed && (sb.remote.Some? <==> sa.remote.Some?)
    requires sb.remote.Some? ==>
               var now, was := sb.remote.value, sa.remote.value;
               && now.request == was.request && now.acceptedAt == was.acceptedAt
               && (now.status.phase == UpdatePhase.Committed ==>
                     was.status.phase == UpdatePhase.Committed && now.target == was.target
                     && now.status.targetSequence == was.status.targetSequence)
    ensures var h' := Remember(h, sa, sb);
            TruthInv(sb, h') && AcceptedInv(sb, h')
  {
    OpeningRemembered(sa, sb, h);
    hide Remember, Accepts;
  }

  lemma OpeningDisk(p: Policy, d: Disk, b: Journal, to: Artifact, sb: Journal)
    requires DiskInv(p, d) && Lawful(p, sb) && Terminal(d.journal.phase)
    requires sb == d.journal.(remote := sb.remote, phase := b.phase, tx := b.tx)
    requires b.phase in {Phase.Prepared, Phase.ManualRecovery} && b.tx.Some?
    requires b.tx.value.from == d.journal.installed && b.tx.value.to == to
    requires d.active == d.journal.installed.digest && to.digest in d.objects && d.pending
    ensures DiskInv(p, d.(journal := sb))
  {
    hide Lawful, Chain;
  }

  /** Opening a transaction, or latching one that could not be saved, keeps the invariant. */
  lemma OpeningSaved(p: Policy, env: Env, s: State, m: Journal, b: Journal, to: Artifact)
    requires ValidPolicy(p) && Inv(p, env, s) && Readied(env, s, m, to) && s.disk.pending && Opening(p, env, m, b, to)
    ensures Permitted(p, s, SaveJournal(b)) && Inv(p, env, Do(s, SaveJournal(b)))
  {
    var sa, sb := Snapshot(m), Snapshot(b);
    OpeningFacts(p, env, s, m, b, to);
    hide Snapshot, Bind, RemoteValid, ValidDigest, ValidPolicy;
    hide Opening, Validate, Lawful, RemoteMove, TruthInv, AcceptedInv, BarrierInv, FailedInv, StreakInv, DiskInv, Evolves,
         Accepts, Remember;
    OpeningTruth(sa, sb, s.hist);
    OpeningHistory(p, env, m, b, to, sa, sb, s.hist);
    assert Do(s, SaveJournal(b)).disk == s.disk.(journal := sb);
  }

  lemma OpeningFacts(p: Policy, env: Env, s: State, m: Journal, b: Journal, to: Artifact)
    requires ValidPolicy(p) && Inv(p, env, s) && Readied(env, s, m, to) && s.disk.pending && Opening(p, env, m, b, to)
    ensures var sa, sb := Snapshot(m), Snapshot(b);
            && Evolves(sa, sb) && !Accepts(sa, sb)
            && sa == m.(remote := sa.remote) && sb == m.(remote := sb.remote, phase := b.phase, tx := b.tx)
            && b.phase in {Phase.Prepared, Phase.ManualRecovery}
            && DiskInv(p, s.disk.(journal := sb))
            && (sb.remote.Some? <==> sa.remote.Some?)
            && (sb.remote.Some? ==>
               var now, was := sb.remote.value, sa.remote.value;
               && now.request == was.request && now.acceptedAt == was.acceptedAt
               && (now.status.phase == UpdatePhase.Committed ==>
                     was.status.phase == UpdatePhase.Committed && now.target == was.target
                     && now.status.targetSequence == was.status.targetSequence))
  {
    var sa, sb := Snapshot(m), Snapshot(b);
    assert Lawful(p, sa) && TruthInv(sa, s.hist);
    assert Validate(p, sa) && RemoteValid(sa) && ValidChannel(m.channel) && ValidSequence(m.installed.sequence)
           && (m.remote.Some? ==> m.remote.value.acceptedAt + UPDATE_COOLDOWN_SECS < LIMIT_53)
           && ValidArtifact(to)
           && (m.remote.Some? && m.remote.value.status.phase == UpdatePhase.Committed ==>
                 m.remote.value.status.targetSequence.Some?
                 && m.remote.value.status.targetSequence.value <= m.installed.sequence) by {
      hide RemoteValid, ValidDigest, HistInv, TrustKept;
    }
    OpeningRemote(p, env, m, b, to);
    assert sa == m.(remote := sa.remote);
    assert b.tx.value.from == m.installed && b.tx.value.to == to;
    hide Snapshot, Bind, RemoteValid, ValidDigest, ValidPolicy, RemoteMove, Accepts, HistInv;
    OpeningLawful(p, env, m, b, to, sa, sb);
    OpeningEvolves(p, env, m, b, to, sa, sb);
    hide Opening, Lawful, Validate, Evolves;
    OpeningDisk(p, s.disk, b, to, sb);
  }

  // ---- the plan ---------------------------------------------------------------------------------------------

  lemma OpenedOpening(p: Policy, env: Env, m: Journal, h: Host, to: Artifact)
    requires HostOk(env, h) && h.agent.Some? && h.probe.Some? && h.boot.Some? && h.clock.Some?
    requires MayPrepare(m, p, to) && to == Candidate(m)
    ensures Opening(p, env, m, Opened(m, h, to), to)
    ensures Opening(p, env, m, Latched(Opened(m, h, to)), to)
    ensures Near(Opened(m, h, to), Opened(m, h, to)) && Opened(m, h, to).phase == Phase.Prepared
    ensures SameDeal(Opened(m, h, to), Opened(m, h, to))
  {
  }

  /** From the durable preparation on. */
  lemma OpenedSafe(p: Policy, env: Env, s: State, m: Journal, h: Host, to: Artifact)
    requires ValidPolicy(p) && Inv(p, env, s) && HostOk(env, h) && Readied(env, s, m, to) && s.disk.pending
    requires h.agent.Some? && h.probe.Some? && h.boot.Some? && h.clock.Some?
    requires MayPrepare(m, p, to) && to == Candidate(m)
    ensures var prepared := Opened(m, h, to);
            Safe(p, env, s, [Save(prepared), Step(PutMark(PreflightMark), prepared)])
  {
    hide Inv, Permitted, ValidPolicy, HostOk, Readied, Opening, Snapshot, MayPrepare, Near, Opened, Candidate, Safe, Do, LatchSafe;
    var prepared := Opened(m, h, to);
    var mark := Step(PutMark(PreflightMark), prepared);
    OpenedOpening(p, env, m, h, to);
    OpeningSaved(p, env, s, m, prepared, to);
    OpeningSaved(p, env, s, m, Latched(prepared), to);
    var next := Do(s, SaveJournal(prepared));
    SavedLoaded(s, prepared);
    LatchSafeNear(p, env, next, prepared, prepared, Failure);
    LatchSafeIntro(p, env, s, prepared, Failure);
    assert MayAsk(next.disk, PreflightMark);
    MarkSafe(p, env, next, prepared, PreflightMark);
    assert Settled(Plan([mark], prepared, Finished)).items == [mark] by {
      assert [mark] + [] == [mark];
    }
    hide Settled;
    SafeCons(p, env, s, Save(prepared), [mark]);
    assert [Save(prepared)] + [mark] == [Save(prepared), mark];
  }

  lemma SavedLoaded(s: State, b: Journal)
    ensures Phases.Loaded(Do(s, SaveJournal(b)).disk, b)
    ensures Do(s, SaveJournal(b)).disk.journal.phase == b.phase
  {
    assert Snapshot(b).phase == b.phase;
    hide Snapshot, Remember;
  }

  lemma LatchSafeIntro(p: Policy, env: Env, s: State, mem: Journal, e: Error)
    requires Permitted(p, s, SaveJournal(Latched(mem))) && Inv(p, env, Do(s, SaveJournal(Latched(mem))))
    ensures LatchSafe(p, env, s, mem, e)
  {
    hide Inv, Permitted, Do;
  }

  /** The pointer to the candidate and the pending flag, before anything that is safe after them. */
  lemma FirstSafe(p: Policy, env: Env, s: State, m: Journal, to: Artifact, rest: seq<Item>)
    requires Inv(p, env, s) && Readied(env, s, m, to) && MayPrepare(m, p, to) && to == Candidate(m)
    requires var s2 := Do(Do(s, PointCandidate(to.digest)), CreatePending);
             Inv(p, env, s2) && Readied(env, s2, m, to) && s2.disk.pending ==> Safe(p, env, s2, rest)
    ensures Safe(p, env, s, [Step(PointCandidate(to.digest), m), Step(CreatePending, m)] + rest)
  {
    assert Permitted(p, s, PointCandidate(to.digest));
    hide Inv, Permitted, Readied, Snapshot, LatchSafe, Do, Safe, MayPrepare;
    var point, create := Step(PointCandidate(to.digest), m), Step(CreatePending, m);
    var s1 := Do(s, point.write);
    var s2 := Do(s1, create.write);
    StillReadied(env, s, m, to);
    InertWrite(p, env, s, point.write);
    InertWrite(p, env, s1, create.write);
    SettledLatch(p, env, s, m);
    SettledLatch(p, env, s1, m);
    SettledLatch(p, env, s2, m);
    SafeCons(p, env, s1, create, rest);
    SafeCons(p, env, s, point, [create] + rest);
    assert [point, create] + rest == [point] + ([create] + rest);
  }

  lemma StillReadied(env: Env, s: State, m: Journal, to: Artifact)
    requires Readied(env, s, m, to)
    ensures var s2 := Do(Do(s, PointCandidate(to.digest)), CreatePending);
            Readied(env, s2, m, to) && s2.disk.pending && Terminal(m.phase)
  {
    hide Snapshot;
  }

  lemma QuietStop(p: Policy, env: Env, s: State, mem: Journal, e: Error)
    requires Inv(p, env, s) && Terminal(mem.phase) && e != Recovery
    ensures Safe(p, env, s, Settled(Stop(mem, e)).items)
  {
    hide Inv;
    SafeNil(p, env, s);
    assert [] + LatchItems(mem, e) == [];
  }

  lemma PrepareSafe(p: Policy, env: Env, s: State, m: Journal, h: Host, to: Artifact)
    requires ValidPolicy(p) && Inv(p, env, s) && HostOk(env, h) && to == Candidate(m)
    requires s.disk.journal == m && m == Snapshot(m) && Terminal(m.phase) && to.digest in s.disk.objects
    requires s.hist.note.None? && !s.hist.flipping && s.hist.sampledAt == |env.log|
    ensures Safe(p, env, s, Settled(PreparePlan(s.disk, m, h, p, to)).items)
  {
    var plan := PreparePlan(s.disk, m, h, p, to);
    hide Inv, Permitted, ValidPolicy, HostOk, Snapshot, MayPrepare, Opened, Bind, Candidate;
    if !MayPrepare(m, p, to) {
      QuietStop(p, env, s, m, PolicyRejected);
    } else if h.activeFault.Some? {
      FaultStop(p, env, s, m, h.activeFault.value);
    } else if s.disk.active != m.installed.digest {
      QuietStop(p, env, s, m, PolicyRejected);
    } else {
      AdmittedSafe(p, env, s, m, h, to);
    }
  }

  lemma FaultStop(p: Policy, env: Env, s: State, m: Journal, e: Error)
    requires ValidPolicy(p) && Inv(p, env, s) && s.disk.journal == Snapshot(m) && Terminal(m.phase)
    ensures Safe(p, env, s, Settled(Stop(m, e)).items)
  {
    hide Inv, Permitted, Snapshot, LatchSafe, Do, Safe, ValidPolicy;
    LatchTerminal(p, env, s, m);
    LatchSafeIntro(p, env, s, m, e);
    LatchItemsSafe(p, env, s, m, e);
    assert [] + LatchItems(m, e) == LatchItems(m, e);
  }

  lemma AdmittedSafe(p: Policy, env: Env, s: State, m: Journal, h: Host, to: Artifact)
    requires ValidPolicy(p) && Inv(p, env, s) && HostOk(env, h) && to == Candidate(m)
    requires Readied(env, s, m, to) && MayPrepare(m, p, to) && h.activeFault.None?
    ensures Safe(p, env, s, Settled(PreparePlan(s.disk, m, h, p, to)).items)
  {
    var plan := PreparePlan(s.disk, m, h, p, to);
    var first := [Step(PointCandidate(to.digest), m), Step(CreatePending, m)];
    var s2 := Do(Do(s, first[0].write), first[1].write);
    assert s.disk.active == m.installed.digest && Terminal(m.phase);
    if h.agent.Some? && h.probe.Some? && h.boot.Some? && h.clock.Some? {
      var prepared := Opened(m, h, to);
      var rest := [Save(prepared), Step(PutMark(PreflightMark), prepared)];
      assert Settled(plan).items == first + rest by {
        assert Tidy(prepared) == [];
        assert (first + rest) + [] == first + rest;
      }
      hide Inv, Permitted, ValidPolicy, HostOk, MayPrepare, Snapshot, Opened, Candidate, Readied, Safe, Do, PreparePlan, Settled;
      if Inv(p, env, s2) && Readied(env, s2, m, to) && s2.disk.pending {
        OpenedSafe(p, env, s2, m, h, to);
      }
      FirstSafe(p, env, s, m, to, rest);
    } else {
      assert Settled(plan).items == first + [] by {
        assert Terminal(Bind(m, to).phase);
      }
      hide Inv, Permitted, ValidPolicy, HostOk, MayPrepare, Snapshot, Candidate, Readied, Do, PreparePlan, Settled;
      if Inv(p, env, s2) {
        SafeNil(p, env, s2);
      }
      FirstSafe(p, env, s, m, to, []);
    }
  }
}
