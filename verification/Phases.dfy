/** Each phase of an open transaction keeps the invariant through all its writes and failures. */
module Phases {
  import opened Options
  import opened LocalPolicy
  import opened Trust
  import opened Journals
  import opened Disks
  import opened Hosts
  import opened Activate
  import opened Runtime
  import opened Worlds
  import opened Saves
  import opened Safety

  /** The command has read its host but written nothing yet. */
  predicate Fresh(env: Env, h: History) {
    h.sampledAt == |env.log| && !h.flipping && !h.accepting
  }

  /** The journal in memory is what the disk holds, up to the status it was saved with. */
  predicate Loaded(d: Disk, m: Journal) {
    d.journal == Snapshot(m)
  }

  lemma LatchSafeNear(p: Policy, env: Env, s: State, m: Journal, mem: Journal, e: Error)
    requires ValidPolicy(p) && Inv(p, env, s) && Loaded(s.disk, m) && Open(m.phase) && Near(m, mem)
    ensures LatchSafe(p, env, s, mem, e)
  {
    hide Inv, Permitted, Snapshot, Near;
    LatchNear(p, env, s, m, mem);
  }

  /** A phase that gives up before writing anything. */
  lemma StopSafe(p: Policy, env: Env, s: State, m: Journal, mem: Journal, e: Error)
    requires ValidPolicy(p) && Inv(p, env, s) && Loaded(s.disk, m) && Open(m.phase) && Near(m, mem)
    ensures Safe(p, env, s, Settled(Stop(mem, e)).items)
  {
    hide Inv, Permitted, Snapshot, LatchSafe;
    LatchSafeNear(p, env, s, m, mem, e);
    LatchItemsSafe(p, env, s, mem, e);
    assert [] + LatchItems(mem, e) == LatchItems(mem, e);
  }

  /** A phase that finds nothing to write. */
  lemma PassSafe(p: Policy, env: Env, s: State, m: Journal)
    requires Inv(p, env, s) && Open(m.phase)
    ensures Safe(p, env, s, Settled(Pass(m)).items)
  {
    hide Inv;
    SafeNil(p, env, s);
    assert Settled(Pass(m)).items == [];
  }

  /** A save that ends the transaction, and the tidying after it. */
  lemma LeaveSafe(p: Policy, env: Env, s: State, m: Journal, b: Journal)
    requires ValidPolicy(p) && Inv(p, env, s) && Loaded(s.disk, m) && Moves(p, m, b)
    requires b.phase == Phase.RolledBack && !s.hist.accepting
    requires Pointer(s.disk.(journal := b)) && FailedInv(b, s.hist)
    requires b.tx.value.boot == m.tx.value.boot
    ensures Safe(p, env, s, Settled(Plan([Save(b)], b, Finished)).items)
  {
    assert Snapshot(b).phase == b.phase;
    hide Inv, Permitted, Snapshot, Moves, Pointer, FailedInv;
    LeavesFrom(p, env, s, m, b);
    var next := Do(s, SaveJournal(b));
    SettledLatch(p, env, s, b);
    SettledLatch(p, env, next, b);
    assert next.disk.journal.phase == b.phase;
    TidySafe(p, env, next, b);
    hide LatchSafe, Do;
    assert Sound(p, env, s, Save(b));
    SafeCons(p, env, s, Save(b), Tidy(b));
  }

  lemma MarkPermitted(p: Policy, s: State, mark: Mark)
    requires MayAsk(s.disk, mark)
    ensures Permitted(p, s, PutMark(mark))
  {
    hide MayAsk;
  }

  /** Only a marker is put down. */
  lemma MarkSafe(p: Policy, env: Env, s: State, m: Journal, mark: Mark)
    requires ValidPolicy(p) && Inv(p, env, s) && Loaded(s.disk, m) && Open(m.phase) && SameDeal(m, m)
    requires MayAsk(s.disk, mark)
    ensures Safe(p, env, s, Settled(Plan([Step(PutMark(mark), m)], m, Finished)).items)
  {
    hide Inv, Permitted, Snapshot, MayAsk, ValidPolicy;
    var item := Step(PutMark(mark), m);
    MarkPermitted(p, s, mark);
    InertWrite(p, env, s, item.write);
    var next := Do(s, item.write);
    LatchSafeNear(p, env, s, m, m, Failure);
    LatchSafeNear(p, env, next, m, m, Failure);
    hide LatchSafe, Do;
    SafeNil(p, env, next);
    SafeCons(p, env, s, item, []);
    assert [item] + Tidy(m) == [item] + [];
  }

  lemma StoredPhase(b: Journal)
    ensures Snapshot(b).phase == b.phase
  {
  }

  lemma NearSelf(m: Journal, b: Journal)
    requires Near(m, b)
    ensures Near(b, b) && SameDeal(b, b)
  {
  }

  /** A save within the transaction, followed by a marker. */
  lemma SaveAndMarkSafe(p: Policy, env: Env, s: State, m: Journal, b: Journal, mark: Mark)
    requires ValidPolicy(p) && Inv(p, env, s) && Loaded(s.disk, m) && Open(m.phase) && Near(m, b) && Open(b.phase)
    requires Permitted(p, s, SaveJournal(b)) && Inv(p, env, Do(s, SaveJournal(b)))
    requires b.phase == Phase.Stopping && mark == StopMark
    ensures Safe(p, env, s, Settled(Plan([Save(b), Step(PutMark(mark), b)], b, Finished)).items)
  {
    hide Inv, Permitted, Snapshot, ValidPolicy, Near;
    StoredPhase(b);
    NearSelf(m, b);
    var next := Do(s, SaveJournal(b));
    LatchSafeNear(p, env, s, m, b, Failure);
    LatchSafeNear(p, env, next, b, b, Failure);
    MarkSafe(p, env, next, b, mark);
    hide LatchSafe, Do;
    var rest := [Step(PutMark(mark), b)] + Tidy(b);
    SafeCons(p, env, s, Save(b), rest);
    assert [Save(b), Step(PutMark(mark), b)] + Tidy(b) == [Save(b)] + rest;
  }

  lemma AbandonMoves(p: Policy, d: Disk, h: History)
    requires DiskInv(p, d) && FailedInv(d.journal, h) && d.journal.phase in {Phase.Prepared, Phase.Stopping}
    ensures var a := d.journal; var b := Abandoned(a);
            Moves(p, a, b) && Pointer(d.(journal := b)) && FailedInv(b, h)
    ensures var a := d.journal; var b := Abandoned(a.(failed := a.failed + [a.tx.value.to.digest]));
            a.phase == Phase.Prepared ==> Moves(p, a, b) && Pointer(d.(journal := b)) && FailedInv(b, h)
    ensures var a := d.journal; Near(a, a) && SameDeal(a, a)
  {
    hide RemoteValid, TrustKept;
  }

  lemma PreparedAdvances(p: Policy, env: Env, s: State, h: Host, sampled: Journal)
    requires ValidPolicy(p) && Inv(p, env, s) && HostOk(env, h) && Fresh(env, s.hist) && s.hist.note.None?
    requires var a := s.disk.journal;
             && a.phase == Phase.Prepared && h.boot == Some(a.tx.value.boot)
             && h.probe.Some? && h.stop.Some? && h.clock.Some?
             && Completed(h.probe.value, a.tx.value.bridgeExit)
             && h.probe.value.result == "success" && h.probe.value.activeState == "active"
             && sampled == a.(tx := Some(a.tx.value.(bridgeExit := h.stop.value.exit)))
    ensures Safe(p, env, s, Settled(PreparedPlan(s.disk, s.disk.journal, h)).items)
  {
    var a := s.disk.journal;
    var stopping := sampled.(
      phase := Phase.Stopping,
      tx := Some(sampled.tx.value.(deadline := h.clock.value.first + BRIDGE_TIMEOUT_MS)));
    assert Loaded(s.disk, a);
    assert PreparedPlan(s.disk, a, h) == Plan([Save(stopping), Step(PutMark(StopMark), stopping)], stopping, Finished);
    hide Inv, Permitted, Snapshot, Safe, Do, Evolves, ValidPolicy, HostOk, Fresh;
    hide Completed, Settled, PreparedPlan;
    StoppingSaved(p, env, s, h, stopping);
    assert Near(a, stopping);
    SaveAndMarkSafe(p, env, s, a, stopping, StopMark);
  }

  lemma PreparedSafe(p: Policy, env: Env, s: State, h: Host)
    requires ValidPolicy(p) && Inv(p, env, s) && HostOk(env, h) && Fresh(env, s.hist) && s.hist.note.None?
    requires s.disk.journal.phase == Phase.Prepared
    ensures Safe(p, env, s, Settled(PreparedPlan(s.disk, s.disk.journal, h)).items)
  {
    var d := s.disk;
    var a := d.journal;
    var tx := a.tx.value;
    AbandonMoves(p, d, s.hist);
    assert Loaded(d, a);
    assert d.active == tx.from.digest;
    hide Inv, Permitted, Snapshot, Moves, Pointer, FailedInv, Safe, Do;
    if h.probe.None? || h.boot.None? {
      StopSafe(p, env, s, a, a, Failure);
    } else if tx.boot != h.boot.value {
      LeaveSafe(p, env, s, a, Abandoned(a));
    } else {
      var probe := h.probe.value;
      var done := Completed(probe, tx.bridgeExit);
      if done && probe.result == "success" && probe.activeState == "active" {
        if h.stop.None? {
          StopSafe(p, env, s, a, a, Failure);
        } else {
          var sampled := a.(tx := Some(tx.(bridgeExit := h.stop.value.exit)));
          if h.clock.None? {
            StopSafe(p, env, s, a, sampled, Failure);
          } else {
            PreparedAdvances(p, env, s, h, sampled);
          }
        }
      } else if !done && h.clock.None? {
        StopSafe(p, env, s, a, a, Failure);
      } else if done || h.clock.value.first > tx.deadline {
        LeaveSafe(p, env, s, a, Abandoned(a.(failed := a.failed + [tx.to.digest])));
      } else if PreflightMark !in d.marks && probe.activeState !in {"activating", "deactivating"} {
        MarkSafe(p, env, s, a, PreflightMark);
      } else {
        PassSafe(p, env, s, a);
      }
    }
  }

  // ---- stopping -------------------------------------------------------------------------------------

  /** Moving `active` where the phase allows it. */
  lemma PointerSafe(p: Policy, env: Env, s: State, digest: Digest)
    requires Inv(p, env, s) && s.disk.journal.tx.Some?
    requires var j := s.disk.journal;
             || (j.phase == Phase.Trial && s.hist.flipping && digest == j.tx.value.to.digest)
             || (j.phase == Phase.RollbackIntent && digest == j.tx.value.from.digest)
    ensures Permitted(p, s, PointActive(digest)) && Inv(p, env, Do(s, PointActive(digest)))
    ensures Do(s, PointActive(digest)).hist == s.hist
    ensures Do(s, PointActive(digest)).disk == s.disk.(active := digest)
  {
    hide BarrierInv, StreakInv, FailedInv, TruthInv, AcceptedInv, Lawful, Chain;
  }

  /** The pointer moves, and a restart is requested. */
  lemma PointAndMarkSafe(p: Policy, env: Env, s: State, m: Journal, digest: Digest)
    requires ValidPolicy(p) && Inv(p, env, s) && Loaded(s.disk, m) && Open(m.phase) && Near(m, m)
    requires Permitted(p, s, PointActive(digest)) && Inv(p, env, Do(s, PointActive(digest)))
    requires MayAsk(s.disk.(active := digest), RestartMark)
    ensures Safe(p, env, s, Settled(Plan([Step(PointActive(digest), m), Step(PutMark(RestartMark), m)], m, Finished)).items)
  {
    hide Inv, Permitted, Snapshot, MayAsk;
    var point := Step(PointActive(digest), m);
    var next := Do(s, point.write);
    assert Loaded(next.disk, m);
    LatchSafeNear(p, env, s, m, m, Failure);
    LatchSafeNear(p, env, next, m, m, Failure);
    MarkSafe(p, env, next, m, RestartMark);
    hide LatchSafe, Do;
    var rest := [Step(PutMark(RestartMark), m)] + Tidy(m);
    SafeCons(p, env, s, point, rest);
    assert [point, Step(PutMark(RestartMark), m)] + Tidy(m) == [point] + rest;
  }

  /** The rest of the flip, once the trial is journaled. */
  lemma FlipTailSafe(p: Policy, env: Env, s: State, trial: Journal)
    requires ValidPolicy(p) && Inv(p, env, s) && Loaded(s.disk, trial) && s.hist.flipping
    requires trial.phase == Phase.Trial && trial.tx.Some?
    ensures Safe(p, env, s, [Step(PointActive(trial.tx.value.to.digest), trial), Step(PutMark(RestartMark), trial)] + Tidy(trial))
    ensures LatchSafe(p, env, s, trial, Failure)
  {
    assert s.disk.journal.phase == trial.phase && s.disk.journal.tx == trial.tx && Near(trial, trial);
    hide Inv, Snapshot, Permitted, Do, Near, Safe;
    PointerSafe(p, env, s, trial.tx.value.to.digest);
    PointAndMarkSafe(p, env, s, trial, trial.tx.value.to.digest);
    LatchSafeNear(p, env, s, trial, trial, Failure);
  }

  /** The journal that starts a trial. */
  function OnTrial(a: Journal, now: nat, p: Policy): Journal
    requires a.tx.Some?
  {
    a.(phase := Phase.Trial, tx := Some(a.tx.value.(deadline := now + p.trialSeconds * 1000)))
  }

  lemma FlipPlan(p: Policy, d: Disk, a: Journal, h: Host)
    requires a.tx.Some? && h.boot == Some(a.tx.value.boot) && h.agent.Some? && h.stop.Some? && h.clock.Some?
    requires StopAcknowledged(d, a.tx.value, h.stop.value) && Stopped(h.agent.value, h.cgroup) == Ok(true)
    ensures var trial := OnTrial(a, h.clock.value.first, p);
            var tail := [Step(PointActive(a.tx.value.to.digest), trial), Step(PutMark(RestartMark), trial)];
            Settled(StoppingPlan(d, a, h, p)).items == [Save(trial)] + (tail + Tidy(trial))
  {
    hide Stopped, StopAcknowledged, Tidy;
  }

  lemma StoppingLoaded(p: Policy, env: Env, s: State)
    requires Inv(p, env, s) && s.disk.journal.phase == Phase.Stopping
    ensures s.disk.journal.tx.Some? && Loaded(s.disk, s.disk.journal)
  {
    hide HistInv, TrustKept, Validate, Snapshot;
  }

  lemma FlipSafe(p: Policy, env: Env, s: State, h: Host)
    requires ValidPolicy(p) && Inv(p, env, s) && HostOk(env, h) && Fresh(env, s.hist) && s.hist.note.None?
    requires var a := s.disk.journal;
             && a.phase == Phase.Stopping && a.tx.Some? && h.boot == Some(a.tx.value.boot)
             && h.agent.Some? && h.stop.Some? && h.clock.Some?
             && StopAcknowledged(s.disk, a.tx.value, h.stop.value)
             && Stopped(h.agent.value, h.cgroup) == Ok(true)
    requires s.hist.quiet
    ensures Safe(p, env, s, Settled(StoppingPlan(s.disk, s.disk.journal, h, p)).items)
  {
    hide Settled, StoppingPlan, Permitted, Safe, Evolves, ValidPolicy, HostOk, Stopped, Inv, Near, Tidy, Snapshot, LatchSafe, Do, Loaded;
    var a := s.disk.journal;
    var trial := OnTrial(a, h.clock.value.first, p);
    var tail := [Step(PointActive(a.tx.value.to.digest), trial), Step(PutMark(RestartMark), trial)];
    FlipPlan(p, s.disk, a, h);
    StoppingLoaded(p, env, s);
    TrialSaved(p, env, s, h, trial);
    hide StopAcknowledged, Fresh;
    SavedLoads(s, trial);
    FlipTailSafe(p, env, Do(s, SaveJournal(trial)), trial);
    assert LatchSafe(p, env, s, trial, Failure) by {
      assert Near(a, trial) by {
        TrialNear(a, h.clock.value.first, p);
      }
      LatchSafeNear(p, env, s, a, trial, Failure);
    }
    SafeCons(p, env, s, Save(trial), tail + Tidy(trial));
  }

  lemma TrialNear(a: Journal, now: nat, p: Policy)
    requires a.tx.Some?
    ensures Near(a, OnTrial(a, now, p))
  {
  }

  lemma StoppingSafe(p: Policy, env: Env, s: State, h: Host)
    requires ValidPolicy(p) && Inv(p, env, s) && HostOk(env, h) && Fresh(env, s.hist) && s.hist.note.None?
    requires s.disk.journal.phase == Phase.Stopping && s.hist.quiet == Quiet(s.disk.marks, h)
    ensures Safe(p, env, s, Settled(StoppingPlan(s.disk, s.disk.journal, h, p)).items)
  {
    var d := s.disk;
    var a := d.journal;
    var tx := a.tx.value;
    AbandonMoves(p, d, s.hist);
    assert Loaded(d, a) && d.active == tx.from.digest;
    hide Inv, Permitted, Snapshot, Moves, Pointer, FailedInv, Safe, Do;
    if h.boot.None? {
      StopSafe(p, env, s, a, a, Failure);
    } else if tx.boot != h.boot.value {
      LeaveSafe(p, env, s, a, Abandoned(a));
    } else if h.agent.None? || h.stop.None? {
      StopSafe(p, env, s, a, a, Failure);
    } else {
      var stop := h.stop.value;
      var quiet := if StopAcknowledged(d, tx, stop) then Stopped(h.agent.value, h.cgroup) else Ok(false);
      hide Stopped;
      if quiet.Err? {
        StopSafe(p, env, s, a, a, quiet.error);
      } else if h.clock.None? {
        StopSafe(p, env, s, a, a, Failure);
      } else if quiet.value {
        FlipSafe(p, env, s, h);
      } else if h.clock.value.first > tx.deadline {
        StopSafe(p, env, s, a, a, Recovery);
      } else if stop.activeState !in {"active", "activating", "deactivating"} && StopMark !in d.marks {
        MarkSafe(p, env, s, a, StopMark);
      } else {
        PassSafe(p, env, s, a);
      }
    }
  }

  // ---- rollback -------------------------------------------------------------------------------------

  lemma LatchSafeBoot(p: Policy, env: Env, s: State, m: Journal, mem: Journal, e: Error)
    requires ValidPolicy(p) && Inv(p, env, s) && Loaded(s.disk, m) && Open(m.phase) && !s.hist.flipping
    requires Rebooted(env, m, mem)
    ensures LatchSafe(p, env, s, mem, e)
  {
    hide Inv, Permitted, Snapshot, Near;
    LatchNear(p, env, s, m, mem);
  }

  lemma RollbackMoves(p: Policy, s: State, m: Journal)
    requires DiskInv(p, s.disk) && FailedInv(s.disk.journal, s.hist) && Loaded(s.disk, m)
    requires m.phase == Phase.RollbackIntent
    ensures m.tx.Some? && Near(m, m) && s.disk.journal.tx == m.tx && s.disk.journal.phase == m.phase
    ensures Moves(p, m, Abandoned(m)) && FailedInv(Abandoned(m), s.hist)
    ensures s.disk.active == m.tx.value.from.digest ==> Pointer(s.disk.(journal := Abandoned(m)))
  {
    var j := s.disk.journal;
    assert j.phase == m.phase && j.tx == m.tx && j.failed == m.failed && j.installed == m.installed;
    hide Snapshot, RemoteValid, TrustKept;
  }

  lemma RequestMoves(p: Policy, s: State, m: Journal, asked: Journal)
    requires DiskInv(p, s.disk) && FailedInv(s.disk.journal, s.hist) && Loaded(s.disk, m)
    requires m.phase == Phase.RollbackIntent && SameDeal(m, asked) && asked == m.(tx := asked.tx)
    ensures Moves(p, m, asked) && FailedInv(asked, s.hist) && Pointer(s.disk.(journal := asked))
    ensures Near(asked, asked)
  {
    var j := s.disk.journal;
    assert j.phase == m.phase && j.tx == m.tx && j.failed == m.failed && j.installed == m.installed;
    hide Snapshot, RemoteValid, TrustKept;
  }

  lemma SavedLoads(s: State, b: Journal)
    ensures Loaded(Do(s, SaveJournal(b)).disk, b)
  {
    hide Snapshot, Remember;
  }

  lemma AskedMoves(p: Policy, env: Env, s: State, m: Journal, asked: Journal)
    requires Inv(p, env, s) && Loaded(s.disk, m) && m.phase == Phase.RollbackIntent
    requires asked == m.(tx := asked.tx) && Rebooted(env, m, asked)
    ensures Moves(p, m, asked) && FailedInv(asked, s.hist) && Pointer(s.disk.(journal := asked))
    ensures Near(asked, asked) && asked.tx.Some? && asked.tx.value.boot in env.boots && asked.phase == m.phase
  {
    hide BarrierInv, StreakInv, TruthInv, AcceptedInv;
    assert SameDeal(m, asked);
    hide DiskInv, FailedInv, Moves, Pointer, Snapshot;
    RequestMoves(p, s, m, asked);
  }

  lemma AskedSaved(p: Policy, env: Env, s: State, m: Journal, asked: Journal)
    requires ValidPolicy(p) && Inv(p, env, s) && Loaded(s.disk, m) && !s.hist.flipping && !s.hist.accepting
    requires m.phase == Phase.RollbackIntent && asked == m.(tx := asked.tx) && Rebooted(env, m, asked)
    ensures Safe(p, env, s, [Save(asked)])
  {
    hide Inv, Snapshot, Permitted, Safe, Moves, Pointer, FailedInv, LatchSafe, Do, ValidPolicy, Near;
    AskedMoves(p, env, s, m, asked);
    hide Rebooted;
    LeavesFrom(p, env, s, m, asked);
    var next := Do(s, SaveJournal(asked));
    SavedLoads(s, asked);
    LatchSafeBoot(p, env, s, m, asked, Failure);
    LatchSafeNear(p, env, next, asked, asked, Failure);
    SafeNil(p, env, next);
    SafeCons(p, env, s, Save(asked), []);
    assert [Save(asked)] + [] == [Save(asked)];
  }

  lemma AskFacts(s: State, m: Journal)
    requires Loaded(s.disk, m) && m.tx.Some?
    ensures s.disk.journal.phase == m.phase && s.disk.journal.tx == m.tx && Near(m, m)
  {
  }

  lemma AskPermitted(p: Policy, s: State, m: Journal)
    requires Loaded(s.disk, m) && m.phase == Phase.RollbackIntent && m.tx.Some?
    ensures var s1 := Do(s, PointActive(m.tx.value.from.digest)); Permitted(p, s1, PutMark(RestartMark))
    ensures MayAsk(Do(s, PointActive(m.tx.value.from.digest)).disk, RestartMark)
  {
  }

  /** Pointer and marker of a restore request, before anything that is safe after them. */
  lemma AskSafe(p: Policy, env: Env, s: State, m: Journal, tail: seq<Item>)
    requires ValidPolicy(p) && Inv(p, env, s) && Loaded(s.disk, m)
    requires m.phase == Phase.RollbackIntent && m.tx.Some?
    requires var s1 := Do(s, PointActive(m.tx.value.from.digest));
             Inv(p, env, Do(s1, PutMark(RestartMark))) ==> Safe(p, env, Do(s1, PutMark(RestartMark)), tail)
    ensures Safe(p, env, s, [Step(PointActive(m.tx.value.from.digest), m), Step(PutMark(RestartMark), m)] + tail)
  {
    hide Inv, Snapshot, Permitted, Near, Safe, ValidPolicy, LatchSafe, Do;
    AskFacts(s, m);
    var from := m.tx.value.from.digest;
    var point, mark := Step(PointActive(from), m), Step(PutMark(RestartMark), m);
    PointerSafe(p, env, s, from);
    var s1 := Do(s, point.write);
    assert MayAsk(s1.disk, RestartMark) && Permitted(p, s1, mark.write) by {
      AskPermitted(p, s, m);
    }
    InertWrite(p, env, s1, mark.write);
    var s2 := Do(s1, mark.write);
    LatchSafeNear(p, env, s, m, m, Failure);
    LatchSafeNear(p, env, s1, m, m, Failure);
    LatchSafeNear(p, env, s2, m, m, Failure);
    SafeCons(p, env, s1, mark, tail);
    SafeCons(p, env, s, point, [mark] + tail);
    assert [point, mark] + tail == [point] + ([mark] + tail);
  }

  /** The restore request: pointer, restart, and the journal that remembers having asked. */
  lemma AskPlanSafe(p: Policy, env: Env, s: State, m: Journal, asked: Journal, finished: bool)
    requires ValidPolicy(p) && Inv(p, env, s) && Loaded(s.disk, m) && !s.hist.flipping && !s.hist.accepting
    requires m.phase == Phase.RollbackIntent && m.tx.Some?
    requires asked == m.(tx := asked.tx) && Rebooted(env, m, asked)
    ensures var ask := [Step(PointActive(m.tx.value.from.digest), m), Step(PutMark(RestartMark), m)];
            Safe(p, env, s, Settled(if finished then Plan(ask + [Save(asked)], asked, Finished)
                                    else Plan(ask, asked, End.Failed(Failure))).items)
  {
    var tail := if finished then [Save(asked)] else LatchItems(asked, Failure);
    var ask := [Step(PointActive(m.tx.value.from.digest), m), Step(PutMark(RestartMark), m)];
    assert Settled(if finished then Plan(ask + [Save(asked)], asked, Finished)
                   else Plan(ask, asked, End.Failed(Failure))).items == ask + tail by {
      assert Tidy(asked) == [];
      assert ask + [Save(asked)] + [] == ask + [Save(asked)];
    }
    var s2 := Do(Do(s, PointActive(m.tx.value.from.digest)), PutMark(RestartMark));
    assert Loaded(s2.disk, m) && s2.hist == s.hist;
    hide Inv, Snapshot, Permitted, Near, Safe, ValidPolicy, Rebooted, Settled, Do;
    if Inv(p, env, s2) {
      if finished {
        AskedSaved(p, env, s2, m, asked);
      } else {
        LatchSafeBoot(p, env, s2, m, asked, Failure);
        LatchItemsSafe(p, env, s2, asked, Failure);
      }
    }
    AskSafe(p, env, s, m, tail);
  }

  /** Whether this tick asks for the restore. */
  predicate Asks(d: Disk, m: Journal, h: Host)
    requires m.tx.Some?
  {
    var tx := m.tx.value;
    && tx.from.digest in d.objects && h.restore.Some?
    && Health(d.active, h.restore.value, tx.from.digest).None?
    && (tx.recoveryRequested ==> h.boot.Some? && tx.boot != h.boot.value)
  }

  /** The journal that remembers the request, as far as the host let it be filled in. */
  function Asked(m: Journal, h: Host): Journal
    requires m.tx.Some?
  {
    var asked := m.tx.value.(
      recoveryRequested := true, boot := if h.boot.Some? then h.boot.value else m.tx.value.boot);
    m.(tx := Some(if h.boot.Some? && h.clock.Some?
                  then asked.(deadline := h.clock.value.fourth + ROLLBACK_TIMEOUT_MS) else asked))
  }

  lemma AskedNear(env: Env, m: Journal, h: Host)
    requires HostOk(env, h) && m.tx.Some? && env.boot in env.boots && m.tx.value.boot in env.boots
    ensures Rebooted(env, m, Asked(m, h))
  {
  }

  lemma AskPlan(d: Disk, m: Journal, h: Host)
    requires m.tx.Some? && Asks(d, m, h)
    ensures var ask := [Step(PointActive(m.tx.value.from.digest), m), Step(PutMark(RestartMark), m)];
            RestorePlan(d, m, h) == if h.boot.Some? && h.clock.Some?
                                    then Plan(ask + [Save(Asked(m, h))], Asked(m, h), Finished)
                                    else Plan(ask, Asked(m, h), End.Failed(Failure))
  {
  }

  lemma RestoreAsks(p: Policy, env: Env, s: State, d: Disk, m: Journal, h: Host)
    requires ValidPolicy(p) && Inv(p, env, s) && Loaded(s.disk, m)
    requires !s.hist.flipping && !s.hist.accepting && m.phase == Phase.RollbackIntent && m.tx.Some?
    requires Rebooted(env, m, Asked(m, h)) && Asks(d, m, h)
    ensures Safe(p, env, s, Settled(RestorePlan(d, m, h)).items)
  {
    AskPlan(d, m, h);
    hide Inv, Permitted, Snapshot, Safe, ValidPolicy, Settled, RestorePlan, Asks, Rebooted;
    AskPlanSafe(p, env, s, m, Asked(m, h), h.boot.Some? && h.clock.Some?);
  }

  lemma RestoreSafe(p: Policy, env: Env, s: State, d: Disk, m: Journal, h: Host)
    requires ValidPolicy(p) && Inv(p, env, s) && HostOk(env, h) && Loaded(s.disk, m)
    requires !s.hist.flipping && !s.hist.accepting && m.phase == Phase.RollbackIntent && m.tx.Some?
    requires d.active == s.disk.active && d.objects == s.disk.objects
    ensures Safe(p, env, s, Settled(RestorePlan(d, m, h)).items)
  {
    var tx := m.tx.value;
    RollbackMoves(p, s, m);
    assert env.boot in env.boots && tx.boot in env.boots;
    if Asks(d, m, h) {
      AskedNear(env, m, h);
      hide Rebooted, Asked, Near, Health;
      hide Inv, Permitted, Snapshot, Moves, Pointer, FailedInv, Safe, Do, ValidPolicy, Settled, HostOk, Asks, RestorePlan;
      RestoreAsks(p, env, s, d, m, h);
    } else {
      hide Inv, Permitted, Snapshot, Moves, Pointer, FailedInv, Safe, Do, ValidPolicy, Settled, HostOk;
      if tx.from.digest !in d.objects {
        StopSafe(p, env, s, m, m, Recovery);
      } else if h.restore.None? {
        StopSafe(p, env, s, m, m, Failure);
      } else if Health(d.active, h.restore.value, tx.from.digest).Some? {
        LeaveSafe(p, env, s, m, Abandoned(m));
      } else if h.boot.None? || h.clock.None? {
        StopSafe(p, env, s, m, m, Failure);
      } else if h.clock.value.fourth > tx.deadline {
        StopSafe(p, env, s, m, m, Recovery);
      } else {
        PassSafe(p, env, s, m);
      }
    }
  }

  lemma IntentMoves(p: Policy, s: State, m: Journal, now: nat)
    requires DiskInv(p, s.disk) && FailedInv(s.disk.journal, s.hist) && Loaded(s.disk, m)
    requires m.phase == Phase.Trial
    ensures m.tx.Some? && Near(m, m) && s.disk.journal.tx == m.tx
    ensures var b := Intent(m, now);
            Moves(p, m, b) && FailedInv(b, s.hist) && Pointer(s.disk.(journal := b)) && Near(m, b) && Near(b, b)
    ensures Near(m, m.(tx := Some(m.tx.value.(rollbackConsumed := true))))
  {
    var j := s.disk.journal;
    assert j.phase == m.phase && j.tx == m.tx && j.failed == m.failed && j.installed == m.installed;
    hide Snapshot, RemoteValid, TrustKept;
  }

  /** `rollback` from a trial: the intent is journaled before anything moves. */
  lemma IntentSafe(p: Policy, env: Env, s: State, d: Disk, m: Journal, h: Host)
    requires ValidPolicy(p) && Inv(p, env, s) && HostOk(env, h) && Loaded(s.disk, m)
    requires !s.hist.flipping && !s.hist.accepting && m.phase == Phase.Trial && m.tx.Some? && h.clock.Some?
    requires d.active == s.disk.active && d.objects == s.disk.objects
    ensures var intent := Intent(m, h.clock.value.third);
            Safe(p, env, s, Settled(Before([Save(intent)], RestorePlan(d, intent, h))).items)
  {
    var intent := Intent(m, h.clock.value.third);
    var rest := RestorePlan(d, intent, h);
    IntentMoves(p, s, m, h.clock.value.third);
    assert intent.phase == Phase.RollbackIntent && intent.tx.Some?;
    assert Settled(Before([Save(intent)], rest)).items == [Save(intent)] + Settled(rest).items by {
      hide RestorePlan;
      assert [Save(intent)] + rest.items + Tidy(rest.mem) == [Save(intent)] + (rest.items + Tidy(rest.mem));
      if rest.end.Failed? {
        var latch := LatchItems(rest.mem, rest.end.error);
        assert [Save(intent)] + rest.items + latch == [Save(intent)] + (rest.items + latch);
      }
    }
    hide Inv, Permitted, Snapshot, Moves, Pointer, FailedInv, Safe, ValidPolicy, Settled, HostOk, Near, Intent, RestorePlan;
    LeavesFrom(p, env, s, m, intent);
    var next := Do(s, SaveJournal(intent));
    assert !next.hist.flipping && !next.hist.accepting && Loaded(next.disk, intent) by {
      IntentRemembered(p, env, s, m, intent);
    }
    assert next.disk.active == s.disk.active && next.disk.objects == s.disk.objects;
    LatchSafeNear(p, env, s, m, intent, Failure);
    LatchSafeNear(p, env, next, intent, intent, Failure);
    hide LatchSafe, Do;
    RestoreSafe(p, env, next, d, intent, h);
    SafeCons(p, env, s, Save(intent), Settled(rest).items);
  }

  lemma IntentRemembered(p: Policy, env: Env, s: State, m: Journal, b: Journal)
    requires Loaded(s.disk, m) && Moves(p, m, b) && b.phase == Phase.RollbackIntent
    ensures Do(s, SaveJournal(b)).hist.flipping == s.hist.flipping
    ensures Do(s, SaveJournal(b)).hist.accepting == s.hist.accepting
    ensures Loaded(Do(s, SaveJournal(b)).disk, b)
  {
  }

  lemma RollbackSafe(p: Policy, env: Env, s: State, d: Disk, m: Journal, h: Host)
    requires ValidPolicy(p) && Inv(p, env, s) && HostOk(env, h) && Loaded(s.disk, m)
    requires !s.hist.flipping && !s.hist.accepting && m.phase in {Phase.Trial, Phase.RollbackIntent} && m.tx.Some?
    requires d.active == s.disk.active && d.objects == s.disk.objects
    ensures Safe(p, env, s, Settled(RollbackPlan(d, m, h)).items)
  {
    var tx := m.tx.value;
    if m.phase == Phase.Trial {
      IntentMoves(p, s, m, 0);
    } else {
      RollbackMoves(p, s, m);
    }
    hide Inv, Permitted, Snapshot, Moves, Pointer, FailedInv, Safe, Do, ValidPolicy, Settled, HostOk, RestorePlan, Near;
    if tx.from.sequence < m.hardFloor {
      StopSafe(p, env, s, m, m, Recovery);
    } else if m.phase == Phase.RollbackIntent {
      RestoreSafe(p, env, s, d, m, h);
    } else if h.clock.None? {
      StopSafe(p, env, s, m, m.(tx := Some(tx.(rollbackConsumed := true))), Failure);
    } else {
      IntentSafe(p, env, s, d, m, h);
    }
  }

  // ---- trial ----------------------------------------------------------------------------------------

  /** The running tick read this evidence from a live trial in its own boot. */
  predicate Judging(p: Policy, s: State, h: Host, evidence: Option<Evidence>, now: nat) {
    var a := s.disk.journal;
    && a.phase == Phase.Trial && a.tx.Some? && h.trial.Some?
    && evidence == TrialEvidence(s.disk.active, a.tx.value, h.trial.value)
    && s.hist.note == (if Judge(a.tx.value, evidence, now, p).Keep? then None
                       else Some(Observation(a.tx.value.boot, now, evidence, h.trial.value)))
  }

  lemma JudgingNoted(p: Policy, s: State, h: Host, evidence: Option<Evidence>, now: nat)
    requires Judging(p, s, h, evidence, now)
    ensures Noted(s.disk.journal.tx.value, Observation(s.disk.journal.tx.value.boot, now, evidence, h.trial.value))
    ensures evidence.Some? ==> s.disk.active == s.disk.journal.tx.value.to.digest
  {
  }

  lemma StoredForm(p: Policy, env: Env, s: State)
    requires Inv(p, env, s)
    ensures s.disk.journal == Snapshot(s.disk.journal)
  {
    hide HistInv, Pointer, ObjectsStored, TrustKept, Validate, Snapshot;
  }

  lemma StreakNear(p: Policy, s: State, h: Host, evidence: Option<Evidence>, now: nat, b: Journal)
    requires Judging(p, s, h, evidence, now) && s.disk.journal == Snapshot(s.disk.journal)
    requires var v := Judge(s.disk.journal.tx.value, evidence, now, p);
             (v.Restart? || v.Forget?) && b == Judged(s.disk.journal, v)
    ensures var a := s.disk.journal;
            && Near(a, b) && Loaded(s.disk, a) && Open(b.phase) && Near(b, b) && a.phase == Phase.Trial && a.tx.Some?
            && s.hist.note == Some(Observation(a.tx.value.boot, now, evidence, h.trial.value))
  {
    hide TrialEvidence, Snapshot;
  }

  /** The streak is saved; whatever is safe afterwards may follow. */
  lemma StreakSafe(p: Policy, env: Env, s: State, h: Host, evidence: Option<Evidence>, now: nat, b: Journal, rest: seq<Item>)
    requires ValidPolicy(p) && Inv(p, env, s) && Fresh(env, s.hist) && Judging(p, s, h, evidence, now)
    requires var v := Judge(s.disk.journal.tx.value, evidence, now, p);
             (v.Restart? || v.Forget?) && b == Judged(s.disk.journal, v)
    requires Inv(p, env, Do(s, SaveJournal(b))) ==> Safe(p, env, Do(s, SaveJournal(b)), rest)
    ensures Safe(p, env, s, [Save(b)] + rest)
  {
    assert s.disk.journal == Snapshot(s.disk.journal) by {
      StoredForm(p, env, s);
    }
    hide Inv, Permitted, Safe, ValidPolicy, Near, TrialEvidence, Noted, Evolves, Snapshot, Judge, Judged, Convinces;
    var a := s.disk.journal;
    var o := Observation(a.tx.value.boot, now, evidence, h.trial.value);
    JudgingNoted(p, s, h, evidence, now);
    StreakNear(p, s, h, evidence, now, b);
    StreakSaved(p, env, s, o, b);
    var next := Do(s, SaveJournal(b));
    LatchSafeNear(p, env, s, a, b, Failure);
    LatchSafeNear(p, env, next, b, b, Failure);
    hide LatchSafe, Do;
    SafeCons(p, env, s, Save(b), rest);
  }

  lemma CommitSafe(p: Policy, env: Env, s: State, h: Host, evidence: Option<Evidence>, now: nat)
    requires ValidPolicy(p) && Inv(p, env, s) && Fresh(env, s.hist) && Judging(p, s, h, evidence, now)
    requires Judge(s.disk.journal.tx.value, evidence, now, p).Commit?
    ensures var b := Judged(s.disk.journal, Verdict.Commit);
            Safe(p, env, s, [Save(b)] + Tidy(b))
  {
    var a := s.disk.journal;
    var b := Judged(a, Verdict.Commit);
    var o := Observation(a.tx.value.boot, now, evidence, h.trial.value);
    JudgingNoted(p, s, h, evidence, now);
    assert Terminal(b.phase) && Snapshot(b).phase == b.phase;
    hide Inv, Permitted, Safe, ValidPolicy, TrialEvidence, Noted, Evolves, Snapshot;
    CommitSaved(p, env, s, o, b);
    var next := Do(s, SaveJournal(b));
    SettledLatch(p, env, s, b);
    SettledLatch(p, env, next, b);
    TidySafe(p, env, next, b);
    hide LatchSafe, Do;
    SafeCons(p, env, s, Save(b), Tidy(b));
  }

  lemma StreakRemembered(p: Policy, s: State, b: Journal)
    requires s.disk.journal.phase == Phase.Trial && b.phase == Phase.Trial
    requires b.remote == s.disk.journal.remote
    ensures var next := Do(s, SaveJournal(b));
            && next.hist.flipping == s.hist.flipping && next.hist.accepting == s.hist.accepting
            && Loaded(next.disk, b) && next.disk.active == s.disk.active && next.disk.objects == s.disk.objects
  {
  }

  /** A tick that saves its streak and then may find the deadline passed. */
  lemma StreakThenSafe(p: Policy, env: Env, s: State, h: Host, evidence: Option<Evidence>)
    requires ValidPolicy(p) && Inv(p, env, s) && HostOk(env, h) && Fresh(env, s.hist) && h.clock.Some?
    requires Judging(p, s, h, evidence, h.clock.value.first)
    requires var v := Judge(s.disk.journal.tx.value, evidence, h.clock.value.first, p); v.Restart? || v.Forget?
    ensures var b := Judged(s.disk.journal, Judge(s.disk.journal.tx.value, evidence, h.clock.value.first, p));
            && b.tx.Some?
            && Safe(p, env, s, [Save(b)] + Tidy(b))
            && Safe(p, env, s, [Save(b)] + Settled(RollbackPlan(s.disk, b, h)).items)
  {
    var now := h.clock.value.first;
    var b := Judged(s.disk.journal, Judge(s.disk.journal.tx.value, evidence, now, p));
    var next := Do(s, SaveJournal(b));
    StreakRemembered(p, s, b);
    assert b.phase == Phase.Trial && Tidy(b) == [];
    hide Inv, Permitted, Safe, ValidPolicy, TrialEvidence, Snapshot, RollbackPlan, Settled, Do, HostOk;
    if Inv(p, env, next) {
      SafeNil(p, env, next);
      RollbackSafe(p, env, next, s.disk, b, h);
    }
    StreakSafe(p, env, s, h, evidence, now, b, []);
    StreakSafe(p, env, s, h, evidence, now, b, Settled(RollbackPlan(s.disk, b, h)).items);
  }

  /** How a saved streak and the rest of the tick make up the settled plan. */
  lemma SettledBefore(item: Item, rest: Plan)
    ensures Settled(Before([item], rest)).items == [item] + Settled(rest).items
  {
    match rest.end
    case Finished =>
      assert [item] + rest.items + Tidy(rest.mem) == [item] + (rest.items + Tidy(rest.mem));
    case Failed(e) =>
      assert [item] + rest.items + LatchItems(rest.mem, e) == [item] + (rest.items + LatchItems(rest.mem, e));
  }

  lemma TimedTrialSafe(p: Policy, env: Env, s: State, h: Host)
    requires ValidPolicy(p) && Inv(p, env, s) && HostOk(env, h) && Fresh(env, s.hist) && h.clock.Some?
    requires s.disk.journal.phase == Phase.Trial && h.boot == Some(s.disk.journal.tx.value.boot) && h.trial.Some?
    requires Judging(p, s, h, TrialEvidence(s.disk.active, s.disk.journal.tx.value, h.trial.value), h.clock.value.first)
    ensures Safe(p, env, s, Settled(TrialPlan(s.disk, s.disk.journal, h, p)).items)
  {
    var d := s.disk;
    var a := d.journal;
    var tx := a.tx.value;
    var now := h.clock.value.first;
    var evidence := TrialEvidence(d.active, tx, h.trial.value);
    var v := Judge(tx, evidence, now, p);
    var b := Judged(a, v);
    assert Loaded(d, a);
    hide Inv, Permitted, Safe, ValidPolicy, TrialEvidence, Snapshot, RollbackPlan, HostOk, Judging, Judge;
    if v.Commit? {
      CommitSafe(p, env, s, h, evidence, now);
      assert TrialPlan(d, a, h, p) == Plan([Save(b)], b, Finished);
    } else if v.Keep? {
      if h.clock.value.second <= tx.deadline {
        PassSafe(p, env, s, a);
        assert TrialPlan(d, a, h, p) == Pass(a);
      } else {
        RollbackSafe(p, env, s, d, a, h);
        assert [] + RollbackPlan(d, a, h).items == RollbackPlan(d, a, h).items;
        assert TrialPlan(d, a, h, p) == RollbackPlan(d, a, h);
      }
    } else {
      StreakThenSafe(p, env, s, h, evidence);
      if h.clock.value.second <= tx.deadline {
        assert TrialPlan(d, a, h, p) == Plan([Save(b)], b, Finished);
      } else {
        assert TrialPlan(d, a, h, p) == Before([Save(b)], RollbackPlan(d, b, h));
        SettledBefore(Save(b), RollbackPlan(d, b, h));
      }
    }
  }

  lemma UntimedPlan(d: Disk, a: Journal, h: Host, p: Policy)
    requires a.phase == Phase.Trial && a.tx.Some? && h.boot == Some(a.tx.value.boot) && h.trial.Some? && h.clock.None?
    ensures var evidence := TrialEvidence(d.active, a.tx.value, h.trial.value);
            var v := Judge(a.tx.value, None, 0, p);
            var b := Judged(a, v);
            TrialPlan(d, a, h, p)
            == if evidence.Some? then Stop(UntimedJudged(a, evidence.value), Failure)
               else if v.Keep? then Stop(a, Failure)
               else Before([Save(b)], Stop(b, Failure))
  {
    hide TrialEvidence, RollbackPlan, UntimedJudged;
  }

  lemma TrialLoaded(p: Policy, env: Env, s: State)
    requires Inv(p, env, s) && s.disk.journal.phase == Phase.Trial
    ensures var a := s.disk.journal; a.tx.Some? && Loaded(s.disk, a) && Near(a, a)
    ensures forall e: Evidence :: Near(s.disk.journal, UntimedJudged(s.disk.journal, e))
  {
    hide HistInv, TrustKept, Validate, Snapshot;
  }

  lemma UntimedTrialSafe(p: Policy, env: Env, s: State, h: Host)
    requires ValidPolicy(p) && Inv(p, env, s) && Fresh(env, s.hist) && h.clock.None?
    requires s.disk.journal.phase == Phase.Trial && s.disk.journal.tx.Some?
    requires h.boot == Some(s.disk.journal.tx.value.boot) && h.trial.Some?
    requires var evidence := TrialEvidence(s.disk.active, s.disk.journal.tx.value, h.trial.value);
             evidence.None? ==> Judging(p, s, h, None, 0)
    ensures Safe(p, env, s, Settled(TrialPlan(s.disk, s.disk.journal, h, p)).items)
  {
    hide Inv, Permitted, Safe, ValidPolicy, TrialEvidence, Snapshot, Judging, TrialPlan, Loaded, Near, UntimedJudged, Settled,
         Fresh;
    var d := s.disk;
    var a := d.journal;
    var tx := a.tx.value;
    var evidence := TrialEvidence(d.active, tx, h.trial.value);
    var v := Judge(tx, None, 0, p);
    TrialLoaded(p, env, s);
    UntimedPlan(d, a, h, p);
    if evidence.Some? {
      StopSafe(p, env, s, a, UntimedJudged(a, evidence.value), Failure);
    } else if v.Keep? {
      StopSafe(p, env, s, a, a, Failure);
    } else {
      var b := Judged(a, v);
      ForgetUntimedSafe(p, env, s, h);
      SettledBefore(Save(b), Stop(b, Failure));
    }
  }

  lemma ForgetUntimedSafe(p: Policy, env: Env, s: State, h: Host)
    requires ValidPolicy(p) && Inv(p, env, s) && Fresh(env, s.hist) && Judging(p, s, h, None, 0)
    requires Judge(s.disk.journal.tx.value, None, 0, p).Forget?
    ensures var b := Judged(s.disk.journal, Judge(s.disk.journal.tx.value, None, 0, p));
            Safe(p, env, s, [Save(b)] + Settled(Stop(b, Failure)).items)
  {
    var b := Judged(s.disk.journal, Judge(s.disk.journal.tx.value, None, 0, p));
    var next := Do(s, SaveJournal(b));
    assert Loaded(next.disk, b) && b.phase == Phase.Trial && Near(b, b);
    hide Inv, Permitted, Safe, ValidPolicy, TrialEvidence, Snapshot, Judging, Near, Do;
    if Inv(p, env, next) {
      StopSafe(p, env, next, b, b, Failure);
    }
    StreakSafe(p, env, s, h, None, 0, b, Settled(Stop(b, Failure)).items);
  }

  lemma TrialSafe(p: Policy, env: Env, s: State, h: Host)
    requires ValidPolicy(p) && Inv(p, env, s) && HostOk(env, h) && Fresh(env, s.hist)
    requires s.disk.journal.phase == Phase.Trial
    requires Loads(p, s.disk) && !s.disk.latched && h.activeFault.None? && s.hist.note == Noting(p, s.disk, h)
    ensures Safe(p, env, s, Settled(TrialPlan(s.disk, s.disk.journal, h, p)).items)
  {
    var a := s.disk.journal;
    assert Loaded(s.disk, a) && a.tx.Some? && Near(a, a);
    hide Inv, Permitted, Safe, ValidPolicy, Snapshot, Loads;
    if h.boot.None? {
      StopSafe(p, env, s, a, a, Failure);
    } else if a.tx.value.boot != h.boot.value {
      RollbackSafe(p, env, s, s.disk, a, h);
    } else if h.trial.None? {
      StopSafe(p, env, s, a, a, Failure);
    } else if h.clock.Some? {
      TimedTrialSafe(p, env, s, h);
    } else {
      UntimedTrialSafe(p, env, s, h);
    }
  }

  // ---- reconcile --------------------------------------------------------------------------------------

  lemma TerminalReconcileSafe(p: Policy, env: Env, s: State, m: Journal, h: Host)
    requires ValidPolicy(p) && Inv(p, env, s) && Loaded(s.disk, m) && Terminal(m.phase)
    requires forall e: Error :: LatchSafe(p, env, s, m, e)
    ensures Safe(p, env, s, Settled(ReconcilePlan(s.disk, m, h, p)).items)
  {
    hide Inv, Permitted, Snapshot, LatchSafe, ValidPolicy, Safe;
    var plan := ReconcilePlan(s.disk, m, h, p);
    TerminalPlan(p, s.disk, m, h);
    hide ReconcilePlan;
    if plan.end.Failed? {
      LatchItemsSafe(p, env, s, m, plan.end.error);
      assert [] + LatchItems(m, plan.end.error) == LatchItems(m, plan.end.error);
    } else {
      TidySafe(p, env, s, m);
      assert [] + Tidy(m) == Tidy(m);
    }
  }

  lemma TerminalPlan(p: Policy, d: Disk, m: Journal, h: Host)
    requires Loaded(d, m) && Terminal(m.phase)
    ensures var plan := ReconcilePlan(d, m, h, p); plan.items == [] && plan.mem == m && d.journal.phase == m.phase
  {
  }

  lemma NotingNeedsTrial(p: Policy, d: Disk, h: Host)
    ensures Noting(p, d, h).Some? ==> d.journal.phase == Phase.Trial
  {
  }

  lemma OpenFacts(p: Policy, env: Env, s: State)
    requires Inv(p, env, s) && Open(s.disk.journal.phase)
    ensures var a := s.disk.journal; Loaded(s.disk, a) && a.tx.Some? && SameDeal(a, a) && Near(a, a)
  {
    hide HistInv, TrustKept, Validate, ObjectsStored;
  }

  lemma ReconcileCases(d: Disk, j: Journal, h: Host, p: Policy)
    requires Open(j.phase) && j.tx.Some?
    ensures var plan := ReconcilePlan(d, j, h, p);
            if h.activeFault.Some? then plan == Stop(j, h.activeFault.value)
            else if d.active != j.tx.value.from.digest && d.active != j.tx.value.to.digest then plan == Stop(j, Recovery)
            else if j.phase == Phase.Prepared then plan == PreparedPlan(d, j, h)
            else if j.phase == Phase.Stopping then plan == StoppingPlan(d, j, h, p)
            else if j.phase == Phase.Trial then plan == TrialPlan(d, j, h, p)
            else plan == RollbackPlan(d, j, h) && j.phase == Phase.RollbackIntent
  {
    hide PreparedPlan, StoppingPlan, TrialPlan, RollbackPlan;
  }

  /** `reconcile` on an open transaction. */
  lemma OpenReconcileSafe(p: Policy, env: Env, s: State, h: Host)
    requires ValidPolicy(p) && Inv(p, env, s) && HostOk(env, h) && Fresh(env, s.hist)
    requires Open(s.disk.journal.phase) && Loads(p, s.disk) && !s.disk.latched
    requires s.hist.note == Noting(p, s.disk, h) && s.hist.quiet == Quiet(s.disk.marks, h)
    ensures Safe(p, env, s, Settled(ReconcilePlan(s.disk, s.disk.journal, h, p)).items)
  {
    hide Permitted, Safe, ValidPolicy, Snapshot, Loads, Noting, Quiet, HostOk, Near,
         PreparedPlan, StoppingPlan, TrialPlan, RollbackPlan, Settled, Inv;
    var a := s.disk.journal;
    OpenFacts(p, env, s);
    NotingNeedsTrial(p, s.disk, h);
    ReconcileCases(s.disk, a, h, p);
    hide ReconcilePlan;
    if h.activeFault.Some? {
      StopSafe(p, env, s, a, a, h.activeFault.value);
    } else if s.disk.active != a.tx.value.from.digest && s.disk.active != a.tx.value.to.digest {
      StopSafe(p, env, s, a, a, Recovery);
    } else if a.phase == Phase.Prepared {
      PreparedSafe(p, env, s, h);
    } else if a.phase == Phase.Stopping {
      StoppingSafe(p, env, s, h);
    } else if a.phase == Phase.Trial {
      TrialSafe(p, env, s, h);
    } else {
      RollbackSafe(p, env, s, s.disk, a, h);
    }
  }
}
