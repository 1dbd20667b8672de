/** Every command, started on any disk that satisfies the invariant, keeps it through all its writes. */
module Commands {
  import opened AgentUpdate
  import opened LocalPolicy
  import opened Trust
  import opened Journals
  import opened Disks
  import opened Hosts
  import opened Activate
  import opened Download
  import opened Runtime
  import opened Worlds
  import opened Safety
  import opened Saves
  import opened Fetches
  import opened Collects
  import opened Phases
  import opened Requests
  import opened Openings

  /** What the model asks of a command's surroundings. */
  predicate CommandOk(env: Env, c: Command) {
    match c
    case Reconcile(boot, host) => HostOk(env, host)
    case Fetching(sweep, fetch) => true
    case Upgrade(sweep, fetch, host) => HostOk(env, host)
    case Remote(request, now, sweep, fetch, host) => HostOk(env, host) && now + UPDATE_COOLDOWN_SECS < LIMIT_53
    case ResetTimeFloor(confirmed, now) => now > 0
    case ShowStatus => true
  }

  /** The history at the start of a command that watches no trial. */
  predicate Set(env: Env, h: History) {
    h.sampledAt == |env.log| && h.note.None? && !h.flipping
  }

  // ---- starting -----------------------------------------------------------------------------------------

  /** A completed observation that changes nothing continues the recorded streak. */
  lemma KeepStreak(p: Policy, d: Disk, hist: History, h: Host)
    requires StreakInv(d.journal, hist) && Watch(p, d, h).Some? && Noting(p, d, h).None?
    ensures StreakInv(d.journal, hist.(trial := hist.trial + [Watch(p, d, h).value]))
  {
    var j := d.journal;
    var tx := j.tx.value;
    var o := Watch(p, d, h).value;
    hide Loads;
    if tx.stableInvocation.Some? {
      var k: nat :| Records(tx, hist.trial, k);
      assert Convincing(tx, o, tx.stableInvocation.value);
      StreakContinues(tx, hist.trial, o, k);
      assert (hist.trial + [o])[k] == hist.trial[k];
    }
  }

  lemma BeginFrame(p: Policy, env: Env, s: State, c: Command)
    ensures var t := Begin(p, env, s, c);
            t.disk == s.disk && t.hist == s.hist.(trial := t.hist.trial, sampledAt := |env.log|, quiet := t.hist.quiet,
                                                 note := t.hist.note, flipping := false, accepting := false)
  {
    hide Watch, Noting, Quiet;
  }

  lemma BeginInv(p: Policy, env: Env, s: State, c: Command)
    requires Inv(p, env, s)
    ensures Inv(p, env, Begin(p, env, s, c)) && Begin(p, env, s, c).disk == s.disk
  {
    BeginStreak(p, env, s, c);
    BeginFrame(p, env, s, c);
    hide DiskInv, StreakInv, Begin, Succeeded, SampleFresh;
  }

  lemma BeginStreak(p: Policy, env: Env, s: State, c: Command)
    requires StreakInv(s.disk.journal, s.hist)
    ensures StreakInv(s.disk.journal, Begin(p, env, s, c).hist)
  {
    if c.Reconcile? && Watch(p, s.disk, c.host).Some? && Noting(p, s.disk, c.host).None? {
      KeepStreak(p, s.disk, s.hist, c.host);
    }
    hide Watch, Noting, Quiet;
  }

  lemma BeginSet(p: Policy, env: Env, s: State, c: Command)
    ensures var h := Begin(p, env, s, c).hist;
            && Fresh(env, h) && (!c.Reconcile? ==> Set(env, h))
            && (c.Reconcile? ==> h.quiet == Quiet(if c.boot then {} else s.disk.marks, c.host)
                                 && h.note == Noting(p, s.disk, c.host))
  {
    hide Watch, Judge, Quiet;
  }

  // ---- lists of writes ------------------------------------------------------------------------------------

  lemma ReturningOne(p: Policy, env: Env, s: State, w: Write, mem: Journal)
    requires Inv(p, env, s) && Permitted(p, s, w) && Inv(p, env, Do(s, w))
    ensures Safe(p, env, s, [Leave(w, mem)]) && AllReturning([Leave(w, mem)])
    ensures After(s, [Leave(w, mem)]) == Do(s, w)
  {
    hide Inv, Permitted, Do;
    SafeNil(p, env, Do(s, w));
    SafeCons(p, env, s, Leave(w, mem), []);
    assert [Leave(w, mem)] + [] == [Leave(w, mem)];
    AfterOne(s, Leave(w, mem));
  }

  lemma {:induction false} ExecuteDone(items: seq<Item>, io: seq<Io>)
    requires AllReturning(items)
    ensures var o := Execute(items, io); !o.off && !o.failed ==> o.writes == Writes(items)
    decreases |items|
  {
    if items != [] && io != [] && io[0].Done? {
      ExecuteDone(items[1..], io[1..]);
      assert Writes(items) == [items[0].write] + Writes(items[1..]);
    }
  }

  /** Every write gets done. */
  predicate Uninterrupted(items: seq<Item>, io: seq<Io>) {
    |io| >= |items| && forall i | 0 <= i < |items| :: io[i].Done?
  }

  lemma {:induction false} UninterruptedWrites(items: seq<Item>, io: seq<Io>)
    requires Uninterrupted(items, io)
    ensures |io| >= |items| && Execute(items, io) == Outcome(Writes(items), io[|items|..], false, false)
    decreases |items|
  {
    if items == [] {
      assert Writes(items) == [];
    } else {
      UninterruptedWrites(items[1..], io[1..]);
      assert Writes(items) == [items[0].write] + Writes(items[1..]);
    }
  }

  // ---- reconcile --------------------------------------------------------------------------------------------

  /** The journal every command reads is its own snapshot and grounded in the local policy. */
  lemma LoadedHolds(p: Policy, env: Env, s: State)
    requires Inv(p, env, s) && Loads(p, s.disk)
    ensures s.disk.journal == Snapshot(s.disk.journal) && Validate(p, s.disk.journal)
    ensures Terminal(s.disk.journal.phase) && s.hist.note.None? ==> Holding(p, s, s.disk.journal)
  {
    hide HistInv, TrustKept, Pointer, RemoteValid, TransactionValid, ValidDigest;
  }

  lemma BootSafe(p: Policy, env: Env, s: State, boot: bool)
    requires Inv(p, env, s)
    ensures var items := BootItems(boot, s.disk.journal); var t := After(s, items);
            && Safe(p, env, s, items) && AllReturning(items) && Inv(p, env, t)
            && t.hist == s.hist && t.disk == s.disk.(marks := if boot then {} else s.disk.marks)
  {
    if boot {
      InertWrite(p, env, s, ClearMarks);
      hide Inv, Permitted;
      ReturningOne(p, env, s, ClearMarks, s.disk.journal);
    } else {
      hide Inv;
      NothingSafe(p, env, s);
    }
  }

  /** What the trial shows does not depend on the markers. */
  lemma NotingIgnoresMarks(p: Policy, d: Disk, marks: set<Mark>, h: Host)
    ensures Noting(p, d.(marks := marks), h) == Noting(p, d, h)
    ensures Loads(p, d.(marks := marks)) == Loads(p, d)
  {
  }

  lemma ManualSafe(p: Policy, env: Env, s: State, h: Host)
    requires ValidPolicy(p) && Inv(p, env, s) && s.disk.journal.phase == Phase.ManualRecovery
    requires Loads(p, s.disk) && s.hist.note.None?
    ensures Safe(p, env, s, Settled(ReconcilePlan(s.disk, s.disk.journal, h, p)).items)
  {
    var j := s.disk.journal;
    LoadedHolds(p, env, s);
    assert Latched(j) == j && StatusOnly(j, j);
    hide Inv, Permitted, Loads, Validate, Snapshot, StatusOnly, ValidPolicy;
    StatusSaved(p, env, s, j);
    LatchItemsSafe(p, env, s, j, Recovery);
    assert [] + LatchItems(j, Recovery) == LatchItems(j, Recovery);
  }

  lemma RecoveredSafe(p: Policy, env: Env, s: State)
    requires ValidPolicy(p) && Inv(p, env, s) && Loads(p, s.disk) && s.hist.note.None?
    ensures var j := s.disk.journal; var recovered := RecoverDownload(j);
            var items := if recovered == j then [] else [Leave(SaveJournal(recovered), recovered)];
            var t := After(s, items);
            && Safe(p, env, s, items) && AllReturning(items) && Inv(p, env, t) && t.hist == s.hist
            && t.disk == s.disk.(journal := Snapshot(recovered)) && recovered.phase == j.phase
  {
    var j := s.disk.journal;
    var recovered := RecoverDownload(j);
    LoadedHolds(p, env, s);
    if recovered == j {
      hide Inv, Loads, Validate, Snapshot;
      NothingSafe(p, env, s);
    } else {
      assert StatusOnly(j, recovered) && !Owns(recovered);
      hide Inv, Permitted, Loads, Validate, Snapshot, RecoverDownload, StatusOnly;
      StatusSaved(p, env, s, recovered);
      ReturningOne(p, env, s, SaveJournal(recovered), recovered);
    }
  }

  /** The settled part, from the state after the boot items and the download repair. */
  lemma SettledSafe(p: Policy, env: Env, s: State, m: Journal, h: Host)
    requires ValidPolicy(p) && Inv(p, env, s) && HostOk(env, h) && Fresh(env, s.hist)
    requires s.disk.journal == Snapshot(m) && s.disk.journal.phase == m.phase && (m == s.disk.journal || Terminal(m.phase))
    requires Terminal(m.phase) || (Loads(p, s.disk) && !s.disk.latched)
    requires s.hist.note == Noting(p, s.disk, h) && s.hist.quiet == Quiet(s.disk.marks, h)
    ensures Safe(p, env, s, Settled(ReconcilePlan(s.disk, m, h, p)).items)
  {
    if m.phase == Phase.ManualRecovery {
      assert s.hist.note.None?;
    }
    hide Inv, Permitted, Loads, Snapshot, ValidPolicy, HostOk, Fresh, Noting, Quiet, Settled, ReconcilePlan;
    if Terminal(m.phase) {
      forall e: Error ensures LatchSafe(p, env, s, m, e) {
        LatchTerminal(p, env, s, m);
        LatchSafeIntro(p, env, s, m, e);
      }
      TerminalReconcileSafe(p, env, s, m, h);
    } else if m.phase == Phase.ManualRecovery {
      ManualSafe(p, env, s, h);
    } else {
      OpenReconcileSafe(p, env, s, h);
    }
  }

  lemma OnlySettledRepaired(j: Journal)
    ensures RecoverDownload(j) == j || Terminal(j.phase)
    ensures RecoverDownload(j).phase == j.phase
  {
  }

  lemma LoadsIgnoresMarks(p: Policy, d: Disk, marks: set<Mark>)
    ensures Loads(p, d.(marks := marks)) == Loads(p, d)
  {
    hide Validate;
  }

  /** Boot items and the download repair, in that order. */
  lemma FirstItemsSafe(p: Policy, env: Env, s: State, boot: bool)
    requires ValidPolicy(p) && Inv(p, env, s) && Loads(p, s.disk)
    requires Terminal(s.disk.journal.phase) ==> s.hist.note.None?
    ensures var j := s.disk.journal; var m := RecoverDownload(j);
            var items := BootItems(boot, j) + (if m == j then [] else [Leave(SaveJournal(m), m)]);
            var t := After(s, items);
            && Safe(p, env, s, items) && AllReturning(items) && Inv(p, env, t) && t.hist == s.hist
            && t.disk == s.disk.(journal := Snapshot(m), marks := if boot then {} else s.disk.marks)
            && m.phase == j.phase && j == Snapshot(j) && (m == j || Terminal(j.phase))
  {
    hide Inv, Loads, Validate, Snapshot, RecoverDownload, BootItems, After, Safe, ValidPolicy;
    var j := s.disk.journal;
    var m := RecoverDownload(j);
    var saves := if m == j then [] else [Leave(SaveJournal(m), m)];
    OnlySettledRepaired(j);
    LoadsIgnoresMarks(p, s.disk, if boot then {} else s.disk.marks);
    LoadedHolds(p, env, s);
    BootSafe(p, env, s, boot);
    var t := After(s, BootItems(boot, j));
    AfterConcat(s, BootItems(boot, j), saves);
    if m == j {
      assert BootItems(boot, j) + saves == BootItems(boot, j);
    } else {
      RecoveredSafe(p, env, t);
      ReturningConcat(p, env, s, BootItems(boot, j), saves);
    }
  }

  lemma ReconcileSafe(p: Policy, env: Env, s: State, boot: bool, h: Host)
    requires ValidPolicy(p) && Inv(p, env, s) && Loads(p, s.disk) && HostOk(env, h) && Fresh(env, s.hist)
    requires s.hist.quiet == Quiet(if boot then {} else s.disk.marks, h) && s.hist.note == Noting(p, s.disk, h)
    ensures Safe(p, env, s, ReconcileScript(p, s.disk, boot, h).items)
  {
    var j := s.disk.journal;
    var gate := IdleGate(p, s.disk, h.activeFault);
    hide Inv, Loads, HostOk, Fresh, Quiet, IdleGate, ValidPolicy;
    assert Terminal(j.phase) ==> s.hist.note.None?;
    hide Noting;
    if gate.Err? || (gate.value.Proceed? && s.disk.latched) {
      SafeNil(p, env, s);
    } else if gate.value.Idle? {
      hide Safe;
      BootSafe(p, env, s, boot);
      TidySafe(p, env, After(s, BootItems(boot, j)), j);
      ReturningConcat(p, env, s, BootItems(boot, j), Tidy(j));
    } else {
      ProceedSafe(p, env, s, boot, h);
    }
  }

  lemma SnapshotPhase(j: Journal)
    ensures Snapshot(j).phase == j.phase
  {
  }

  lemma ScriptParts(p: Policy, d: Disk, boot: bool, h: Host)
    requires IdleGate(p, d, h.activeFault) == Ok(Proceed) && !d.latched
    ensures var m := RecoverDownload(d.journal);
            var first := BootItems(boot, d.journal) + (if m == d.journal then [] else [Leave(SaveJournal(m), m)]);
            ReconcileScript(p, d, boot, h).items == first + Settled(ReconcilePlan(Written(d, first), m, h, p)).items
  {
    hide Settled, ReconcilePlan, RecoverDownload, BootItems, IdleGate, Written;
  }

  /** The settled part on the disk as `t` has it. */
  lemma ProceedSafe(p: Policy, env: Env, s: State, boot: bool, h: Host)
    requires ValidPolicy(p) && Inv(p, env, s) && Loads(p, s.disk) && HostOk(env, h) && Fresh(env, s.hist)
    requires s.hist.quiet == Quiet(if boot then {} else s.disk.marks, h) && s.hist.note == Noting(p, s.disk, h)
    requires IdleGate(p, s.disk, h.activeFault) == Ok(Proceed) && !s.disk.latched
    ensures Safe(p, env, s, ReconcileScript(p, s.disk, boot, h).items)
  {
    hide Inv, Loads, HostOk, Fresh, Quiet, IdleGate, ValidPolicy, Settled, ReconcilePlan, ReconcileScript, RecoverDownload, BootItems,
         Snapshot, Safe, After, Noting;
    var j := s.disk.journal;
    var m := RecoverDownload(j);
    var first := BootItems(boot, j) + (if m == j then [] else [Leave(SaveJournal(m), m)]);
    var t := After(s, first);
    var rest := Settled(ReconcilePlan(t.disk, m, h, p)).items;
    AfterDisk(s, first);
    ScriptParts(p, s.disk, boot, h);
    assert Terminal(j.phase) ==> s.hist.note.None? by {
      NotingNeedsTrial(p, s.disk, h);
    }
    FirstItemsSafe(p, env, s, boot);
    assert s.hist.note == Noting(p, t.disk, h) by {
      NotingIgnoresMarks(p, s.disk, if boot then {} else s.disk.marks, h);
      NotingNeedsTrial(p, t.disk, h);
      SnapshotPhase(m);
    }
    SnapshotPhase(m);
    assert m == j ==> t.disk == s.disk.(marks := if boot then {} else s.disk.marks);
    LoadsIgnoresMarks(p, s.disk, if boot then {} else s.disk.marks);
    SettledSafe(p, env, t, m, h);
    ReturningConcat(p, env, s, first, rest);
  }

  // ---- download and apply -------------------------------------------------------------------------------------

  lemma NewerSnapshot(a: Journal, b: Journal)
    requires a == Snapshot(a) && Newer(a, b)
    ensures b == Snapshot(b)
  {
  }

  /** The state a finished download leaves, ready for what follows it. */
  lemma DownloadedReady(p: Policy, env: Env, s: State, plan: Plan)
    requires ValidPolicy(p) && Downloaded(p, env, s, s.disk.journal, plan) && s.disk.journal == Snapshot(s.disk.journal)
    ensures var t := After(s, plan.items); var m := plan.mem;
            && t.disk == Written(s.disk, plan.items) && Inv(p, env, t) && t.hist == s.hist
            && t.disk.journal == m && m == Snapshot(m) && Terminal(m.phase)
            && Validate(p, m) && Candidate(m).digest in t.disk.objects
  {
    var t := After(s, plan.items);
    AfterDisk(s, plan.items);
    NewerSnapshot(s.disk.journal, plan.mem);
    assert t.disk.journal == plan.mem && Terminal(plan.mem.phase);
    assert Validate(p, plan.mem) by {
      hide HistInv, TrustKept, RemoteValid, TransactionValid, Validate, Newer, Forward;
    }
    hide Inv, Newer, Forward, After, Validate;
  }

  lemma FetchScriptSafe(p: Policy, env: Env, s: State, sweep: Sweep, f: Fetch)
    requires ValidPolicy(p) && Inv(p, env, s) && Loads(p, s.disk) && s.hist.note.None?
    ensures Safe(p, env, s, FetchScript(p, s.disk, sweep, f).items)
  {
    var j := s.disk.journal;
    LoadedHolds(p, env, s);
    hide Inv, Loads, ValidPolicy, Validate, Holding, Safe, Snapshot;
    if s.disk.latched || !Terminal(j.phase) {
      NothingSafe(p, env, s);
    } else {
      FetchedPlanSafe(p, env, s, j, sweep, f);
      var fetched := FetchedPlan(p, s.disk, j, sweep, f);
      hide FetchedPlan, Downloaded;
      if fetched.end.Finished? {
        var t := After(s, fetched.items);
        DownloadedReady(p, env, s, fetched);
        hide After;
        TidySafe(p, env, t, fetched.mem);
        ReturningConcat(p, env, s, fetched.items, Tidy(fetched.mem));
      }
    }
  }

  lemma UpToDateSafe(p: Policy, env: Env, s: State)
    requires ValidPolicy(p) && Inv(p, env, s) && s.hist.note.None?
    requires var m := s.disk.journal; m == Snapshot(m) && Terminal(m.phase) && Validate(p, m)
    ensures var current := MarkUpToDate(s.disk.journal);
            Safe(p, env, s, [Leave(SaveJournal(current), current)] + Tidy(current))
  {
    var m := s.disk.journal;
    var current := MarkUpToDate(m);
    assert StatusOnly(m, current) && current.phase == m.phase && (current != m ==> !Owns(current));
    assert Snapshot(current).phase == m.phase;
    hide Inv, Permitted, Validate, Snapshot, MarkUpToDate, StatusOnly, ValidPolicy;
    StatusSaved(p, env, s, current);
    ReturningOne(p, env, s, SaveJournal(current), current);
    TidySafe(p, env, Do(s, SaveJournal(current)), current);
    hide Safe, Do, After;
    ReturningConcat(p, env, s, [Leave(SaveJournal(current), current)], Tidy(current));
  }

  lemma UpgradeScriptSafe(p: Policy, env: Env, s: State, sweep: Sweep, f: Fetch, h: Host)
    requires ValidPolicy(p) && Inv(p, env, s) && Loads(p, s.disk) && HostOk(env, h) && Set(env, s.hist)
    ensures Safe(p, env, s, UpgradeScript(p, s.disk, sweep, f, h).items)
  {
    var j := s.disk.journal;
    LoadedHolds(p, env, s);
    hide Inv, Loads, ValidPolicy, Validate, Holding, Safe, Snapshot, HostOk;
    if s.disk.latched || !Terminal(j.phase) {
      NothingSafe(p, env, s);
    } else {
      UpgradeItems(p, s.disk, sweep, f, h);
      var fetched := FetchedPlan(p, s.disk, j, sweep, f);
      hide FetchedPlan, Downloaded, UpgradeScript, After, Following;
      FetchedPlanSafe(p, env, s, j, sweep, f);
      if fetched.end.Finished? {
        DownloadedReady(p, env, s, fetched);
        ActOnSafe(p, env, After(s, fetched.items), h);
        ReturningConcat(p, env, s, fetched.items, Following(p, After(s, fetched.items).disk, fetched.mem, h));
      }
    }
  }

  /** What an apply does once the release is stored. */
  function Following(p: Policy, d: Disk, m: Journal, h: Host): seq<Item> {
    var current := MarkUpToDate(m);
    if Candidate(m) != m.installed then Settled(PreparePlan(d, m, h, p, Candidate(m))).items
    else [Leave(SaveJournal(current), current)] + Tidy(current)
  }

  lemma UpgradeItems(p: Policy, d: Disk, sweep: Sweep, f: Fetch, h: Host)
    requires !d.latched && Terminal(d.journal.phase)
    ensures var fetched := FetchedPlan(p, d, d.journal, sweep, f);
            UpgradeScript(p, d, sweep, f, h).items
            == if fetched.end.Failed? then fetched.items
               else fetched.items + Following(p, Written(d, fetched.items), fetched.mem, h)
  {
    var fetched := FetchedPlan(p, d, d.journal, sweep, f);
    var m := fetched.mem;
    hide FetchedPlan, Settled, PreparePlan, MarkUpToDate, Written;
    var save := [Leave(SaveJournal(MarkUpToDate(m)), MarkUpToDate(m))];
    assert fetched.items + save + Tidy(MarkUpToDate(m)) == fetched.items + (save + Tidy(MarkUpToDate(m)));
  }

  /** After the download: prepare the candidate, or record that there is nothing newer. */
  lemma ActOnSafe(p: Policy, env: Env, t: State, h: Host)
    requires ValidPolicy(p) && Inv(p, env, t) && HostOk(env, h) && Set(env, t.hist)
    requires var m := t.disk.journal;
             m == Snapshot(m) && Terminal(m.phase) && Validate(p, m) && Candidate(m).digest in t.disk.objects
    ensures Safe(p, env, t, Following(p, t.disk, t.disk.journal, h))
  {
    var m := t.disk.journal;
    hide Inv, ValidPolicy, Validate, Safe, Snapshot, HostOk, PreparePlan, Settled, MarkUpToDate;
    if Candidate(m) != m.installed {
      PrepareSafe(p, env, t, m, h, Candidate(m));
    } else {
      UpToDateSafe(p, env, t);
    }
  }

  // ---- the time floor -------------------------------------------------------------------------------------------

  lemma FloorSafe(p: Policy, env: Env, s: State, now: nat)
    requires ValidPolicy(p) && Inv(p, env, s) && Loads(p, s.disk) && Terminal(s.disk.journal.phase) && s.hist.note.None?
    requires now > 0
    ensures var lowered := s.disk.journal.(timeHigh := now);
            Safe(p, env, s, [Leave(SaveJournal(lowered), lowered)])
  {
    var j := s.disk.journal;
    var lowered := j.(timeHigh := now);
    LoadedHolds(p, env, s);
    assert TrustKept(p, s.disk.(journal := lowered)) by {
      hide HistInv, Lawful, Chain, Pointer, Validate;
    }
    assert Newer(j, lowered) && Forward(j, lowered) && Grounded(p, lowered);
    hide Inv, Permitted, Loads, Validate, Snapshot, ValidPolicy, TrustKept, Newer, Forward, Grounded;
    NewerSaved(p, env, s, lowered);
    ReturningOne(p, env, s, SaveJournal(lowered), lowered);
  }

  // ---- dispatch -----------------------------------------------------------------------------------------------------

  lemma RefusalSafe(p: Policy, env: Env, s: State, mem: Journal)
    requires Inv(p, env, s)
    ensures Safe(p, env, s, [Item(RequireRecovery, mem, Ignored)])
  {
    hide Inv, Permitted;
    RequireRecoverySafe(p, env, s);
    SafeNil(p, env, s);
    SafeNil(p, env, Do(s, RequireRecovery));
    var item := Item(RequireRecovery, mem, Ignored);
    SafeConsIgnored(p, env, s, item, []);
    assert [item] + [] == [item];
  }

  lemma DispatchSafe(p: Policy, env: Env, s: State, c: Command)
    requires ValidPolicy(p) && Inv(p, env, s) && CommandOk(env, c) && !c.Remote?
    requires Fresh(env, s.hist) || (c.Upgrade? && Set(env, s.hist))
    requires !c.Reconcile? ==> Set(env, s.hist)
    requires c.Reconcile? ==> s.hist.quiet == Quiet(if c.boot then {} else s.disk.marks, c.host)
                              && s.hist.note == Noting(p, s.disk, c.host)
    ensures Safe(p, env, s, Dispatch(p, s.disk, c).items)
  {
    hide Inv, Loads, ValidPolicy, HostOk, Quiet, Noting, ReconcileScript, FetchScript, UpgradeScript;
    if !p.enabled && (c.Fetching? || c.Upgrade?) {
      SafeNil(p, env, s);
    } else if !Loads(p, s.disk) {
      RefusalSafe(p, env, s, s.disk.journal);
    } else {
      match c
      case Reconcile(boot, h) => ReconcileSafe(p, env, s, boot, h);
      case ShowStatus => TidySafe(p, env, s, s.disk.journal);
      case ResetTimeFloor(confirmed, now) =>
        SafeNil(p, env, s);
        if Terminal(s.disk.journal.phase) {
          FloorSafe(p, env, s, now);
        }
      case Fetching(sweep, f) => FetchScriptSafe(p, env, s, sweep, f);
      case Upgrade(sweep, f, h) => UpgradeScriptSafe(p, env, s, sweep, f, h);
    }
  }

  // ---- the remote command ---------------------------------------------------------------------------------------------

  /** A remote run stays the accepting one, whatever its apply writes. */
  lemma {:induction false} AcceptingLasts(s: State, ws: seq<Write>)
    requires s.hist.note.None?
    ensures var t := DoAll(s, ws); t.hist.note.None? && (s.hist.accepting ==> t.hist.accepting)
    decreases |ws|
  {
    if ws != [] {
      AcceptingLasts(Do(s, ws[0]), ws[1..]);
    }
  }

  lemma AcceptedSet(env: Env, s: State, b: Journal)
    requires Set(env, s.hist) && Terminal(b.phase) && b.phase == s.disk.journal.phase && b.tx == s.disk.journal.tx
    requires Accepts(s.disk.journal, Snapshot(b))
    ensures Set(env, Do(s, SaveJournal(b)).hist) && Do(s, SaveJournal(b)).hist.accepting
  {
  }

  lemma AcceptScriptSafe(p: Policy, env: Env, s: State, request: Request, now: nat)
    requires ValidPolicy(p) && Inv(p, env, s) && Set(env, s.hist) && now + UPDATE_COOLDOWN_SECS < LIMIT_53
    ensures var script := AcceptScript(p, s.disk, request, now);
            && Safe(p, env, s, script.items)
            && (!script.failed ==>
                  && AllReturning(script.items)
                  && Set(env, After(s, script.items).hist) && After(s, script.items).hist.accepting)
  {
    var j := s.disk.journal;
    var accepted := Accept(p, j, request, now);
    hide Inv, Permitted, Loads, Snapshot, Accept, ValidPolicy;
    if !p.enabled || (Loads(p, s.disk) && (s.disk.latched || accepted.Err?)) {
      SafeNil(p, env, s);
    } else if !Loads(p, s.disk) {
      RefusalSafe(p, env, s, j);
    } else {
      AdmitSafe(p, env, s, request, now);
    }
  }

  lemma AdmitFacts(p: Policy, env: Env, s: State, request: Request, now: nat)
    requires ValidPolicy(p) && Inv(p, env, s) && Loads(p, s.disk) && now + UPDATE_COOLDOWN_SECS < LIMIT_53
    requires Accept(p, s.disk.journal, request, now).Ok?
    ensures var b := Accept(p, s.disk.journal, request, now).value;
            && Accepts(s.disk.journal, Snapshot(b))
            && Terminal(b.phase) && b.phase == s.disk.journal.phase && b.tx == s.disk.journal.tx
    ensures Validate(p, s.disk.journal)
  {
    assert Lawful(p, s.disk.journal) && Validate(p, s.disk.journal);
    AcceptedAside(p, s.disk.journal, request, now);
    hide Inv, Loads, Validate;
  }

  lemma AdmitSafe(p: Policy, env: Env, s: State, request: Request, now: nat)
    requires ValidPolicy(p) && Inv(p, env, s) && Set(env, s.hist) && now + UPDATE_COOLDOWN_SECS < LIMIT_53
    requires Loads(p, s.disk) && Accept(p, s.disk.journal, request, now).Ok?
    ensures var b := Accept(p, s.disk.journal, request, now).value;
            var items := [Leave(CreatePending, b), Leave(SaveJournal(b), b)];
            && Safe(p, env, s, items) && AllReturning(items)
            && Set(env, After(s, items).hist) && After(s, items).hist.accepting
  {
    var b := Accept(p, s.disk.journal, request, now).value;
    AdmitFacts(p, env, s, request, now);
    hide Inv, Permitted, Loads, Validate, Snapshot, Accepts, Accept, ValidPolicy;
    InertWrite(p, env, s, CreatePending);
    var t := Do(s, CreatePending);
    AcceptSaved(p, env, t, request, now);
    AcceptedSet(env, t, b);
    ReturningOne(p, env, s, CreatePending, b);
    ReturningOne(p, env, t, SaveJournal(b), b);
    hide Do, After, Safe;
    var first, second := [Leave(CreatePending, b)], [Leave(SaveJournal(b), b)];
    ReturningConcat(p, env, s, first, second);
    AfterConcat(s, first, second);
    assert first + second == [Leave(CreatePending, b), Leave(SaveJournal(b), b)];
  }

  lemma ReportSafe(p: Policy, env: Env, s: State, failed: bool)
    requires ValidPolicy(p) && Inv(p, env, s) && s.hist.note.None? && s.hist.accepting
    ensures Safe(p, env, s, ReportScript(p, s.disk, failed).items)
  {
    var b := Reported(s.disk.journal, failed);
    hide Inv, Permitted, Reported, Snapshot, ValidPolicy;
    if Loads(p, s.disk) {
      hide RootsStored, CacheStored, ObjectsStored, Validate;
      ReportedSaved(p, env, s, failed);
      ReturningOne(p, env, s, SaveJournal(b), b);
    } else {
      SafeNil(p, env, s);
    }
  }

  /** The apply of an accepted request, and its report. */
  lemma AppliedSafe(p: Policy, env: Env, s: State, c: Command, io: seq<Io>)
    requires ValidPolicy(p) && Inv(p, env, s) && c.Remote? && CommandOk(env, c)
    requires Set(env, s.hist) && s.hist.accepting
    ensures AllSafe(p, env, s, Applied(p, s.disk, c, io))
  {
    var applying := Dispatch(p, s.disk, Upgrade(c.sweep, c.fetch, c.host));
    var applied := Execute(applying.items, io);
    var t := DoAll(s, applied.writes);
    var report := ReportScript(p, t.disk, applying.failed || applied.failed);
    hide Inv, ValidPolicy, HostOk, Permitted, Do;
    DispatchSafe(p, env, s, Upgrade(c.sweep, c.fetch, c.host));
    hide Dispatch, ReportScript, Safe;
    ExecuteSafe(p, env, s, applying.items, io);
    AllSafeEnds(p, env, s, applied.writes);
    AcceptingLasts(s, applied.writes);
    hide DoAll, AllSafe, Execute;
    ReportSafe(p, env, t, applying.failed || applied.failed);
    ExecuteSafe(p, env, t, report.items, applied.io);
    AllSafeConcat(p, env, s, applied.writes, Execute(report.items, applied.io).writes);
  }

  lemma RemoteSafe(p: Policy, env: Env, s: State, c: Command, io: seq<Io>)
    requires ValidPolicy(p) && Inv(p, env, s) && c.Remote? && CommandOk(env, c) && Set(env, s.hist)
    ensures AllSafe(p, env, s, Performed(p, s.disk, c, io))
  {
    var accepting := AcceptScript(p, s.disk, c.request, c.now);
    var accepted := Execute(accepting.items, io);
    hide Inv, ValidPolicy, HostOk, Permitted, Do;
    AcceptScriptSafe(p, env, s, c.request, c.now);
    hide AcceptScript, Safe;
    ExecuteSafe(p, env, s, accepting.items, io);
    if !(accepted.off || accepted.failed || accepting.failed) {
      ExecuteDone(accepting.items, io);
      AllSafeEnds(p, env, s, accepted.writes);
      var s1 := DoAll(s, accepted.writes);
      assert s1 == After(s, accepting.items);
      hide After, DoAll, AllSafe, Execute, Applied;
      AppliedSafe(p, env, s1, c, accepted.io);
      AllSafeConcat(p, env, s, accepted.writes, Applied(p, s1.disk, c, accepted.io));
    }
  }

  /**
   * Any command, on any disk satisfying the invariant, whatever the host answers and whichever of
   * its writes are lost, torn or never attempted: every write that lands is permitted where it
   * lands, and the invariant holds after each of them.
   */
  lemma PerformedSafe(p: Policy, env: Env, s: State, c: Command, io: seq<Io>)
    requires ValidPolicy(p) && Inv(p, env, s) && CommandOk(env, c)
    ensures AllSafe(p, env, Begin(p, env, s, c), Performed(p, s.disk, c, io))
  {
    var t := Begin(p, env, s, c);
    BeginInv(p, env, s, c);
    BeginSet(p, env, s, c);
    hide Inv, ValidPolicy, HostOk, Permitted, Begin, Quiet, Noting, Dispatch, Do;
    if c.Remote? {
      hide Performed;
      RemoteSafe(p, env, t, c, io);
    } else {
      DispatchSafe(p, env, t, c);
      hide Safe, AllSafe, Execute;
      ExecuteSafe(p, env, t, Dispatch(p, t.disk, c).items, io);
    }
  }
}
