/**
 * Exactly which commands make a loadable disk unloadable: those that latch a committed transaction.
 * The condition is over the disk the command finds and the answers of its host.
 */
module LatchedCommits {
  import opened Options
  import opened AgentUpdate
  import opened LocalPolicy
  import opened Trust
  import opened Journals
  import opened Disks
  import opened Hosts
  import opened Activate
  import opened Download
  import opened Runtime
  import opened Worlds
  import opened Safety
  import opened Fetches
  import opened Collects
  import opened Commands
  import opened Runs
  import Guarantees

  // ---- the commands that do it ----------------------------------------------------------------------------

  predicate ReconcileKills(p: Policy, d: Disk, h: Host) {
    && p.enabled && !d.latched && d.journal.phase == Phase.Committed
    && h.activeFault == Some(Recovery)
  }

  /** The repository offers a release newer than the installed one that has not failed before. */
  predicate OffersNewer(j: Journal, f: Fetch) {
    && f.repository.Loaded? && f.repository.offer.Some?
    && var o := f.repository.offer.value;
       o.release.sequence > j.installed.sequence && o.digest !in j.failed && |j.failed| < FAILED_QUOTA
  }

  /** The apply is offered a newer release, and nothing goes wrong with fetching it. */
  predicate UpgradeKills(p: Policy, d: Disk, s: Sweep, f: Fetch, h: Host) {
    && p.enabled && !d.latched && d.journal.phase == Phase.Committed
    && OffersNewer(d.journal, f) && h.activeFault == Some(Recovery)
    && FetchedPlan(p, d, d.journal, s, f).end.Finished?
  }

  predicate Kills(p: Policy, d: Disk, c: Command) {
    match c
    case Reconcile(boot, h) => ReconcileKills(p, d, h)
    case Upgrade(s, f, h) => UpgradeKills(p, d, s, f, h)
    case Remote(request, now, s, f, h) =>
      var accepting := AcceptScript(p, d, request, now);
      !accepting.failed && UpgradeKills(p, Written(d, accepting.items), s, f, h)
    case _ => false
  }

  // ---- scripts without such a write -------------------------------------------------------------------------

  /** No journal these items may write, even when they fail, is a latched commit. */
  predicate Mild(items: seq<Item>)
    decreases items
  {
    forall i | 0 <= i < |items| :: MildItem(items[i])
  }

  predicate MildItem(item: Item)
    decreases item
  {
    && (item.write.SaveJournal? ==> !Dead(item.write.state))
    && (item.fault.Latching? && Latches(item.mem, Failure) ==> !Dead(Latched(item.mem)))
    && (item.fault.Rescued? ==> Mild(item.fault.lost.items) && Mild(item.fault.torn.items))
  }

  predicate Living(ws: seq<Write>) {
    forall i | 0 <= i < |ws| && ws[i].SaveJournal? :: !Dead(ws[i].state)
  }

  lemma MildLatch(mem: Journal, e: Error)
    requires Latches(mem, e) ==> !Dead(Latched(mem))
    ensures Mild(LatchItems(mem, e))
  {
  }

  lemma MildConcat(a: seq<Item>, b: seq<Item>)
    requires Mild(a) && Mild(b)
    ensures Mild(a + b)
  {
    forall i | 0 <= i < |a + b| ensures MildItem((a + b)[i]) {
      if i < |a| {
        assert MildItem(a[i]);
      } else {
        assert MildItem(b[i - |a|]);
      }
    }
  }

  lemma {:induction false} ExecuteLiving(items: seq<Item>, io: seq<Io>)
    requires Mild(items)
    ensures Living(Execute(items, io).writes)
    decreases |io|
  {
    if items != [] && io != [] {
      var item := items[0];
      assert MildItem(item);
      assert Mild(items[1..]) by {
        assert forall i | 0 <= i < |items[1..]| :: MildItem(items[1..][i]) by {
          assert forall i | 0 <= i < |items[1..]| :: items[1..][i] == items[i + 1];
        }
      }
      MildRescue(item);
      hide MildItem, Dead, LatchItems;
      var rest := if io[0].Done? || item.fault.Ignored? then items[1..]
                  else if item.fault.Returning? then []
                  else if item.fault.Rescued? then Rescue(item.fault, io[0]).items
                  else LatchItems(item.mem, Failure);
      ExecuteLiving(rest, io[1..]);
    }
  }

  lemma MildRescue(item: Item)
    requires MildItem(item)
    ensures item.fault.Rescued? ==> forall io: Io :: Mild(Rescue(item.fault, io).items)
    ensures item.fault.Latching? ==> Mild(LatchItems(item.mem, Failure))
    ensures item.write.SaveJournal? ==> !Dead(item.write.state)
  {
    if item.fault.Latching? {
      MildLatch(item.mem, Failure);
    }
  }

  lemma {:induction false} LivingEnds(d: Disk, ws: seq<Write>)
    requires !Dead(d.journal) && Living(ws)
    ensures !Dead(ApplyAll(d, ws).journal)
    decreases |ws|
  {
    if ws != [] {
      assert !Dead(Apply(d, ws[0]).journal);
      LivingEnds(Apply(d, ws[0]), ws[1..]);
    }
  }

  // ---- reconcile ------------------------------------------------------------------------------------------------

  /** A journal of the transaction of `j`, committed or with `installed` where it was. */
  predicate Kin(j: Journal, m: Journal) {
    && j.tx.Some? && m.tx.Some? && m.tx.value.to == j.tx.value.to
    && (m.phase == Phase.Committed || m.installed == j.installed)
  }

  predicate KinItems(j: Journal, items: seq<Item>) {
    forall i | 0 <= i < |items| ::
      && Kin(j, items[i].mem) && items[i].fault.Latching?
      && (items[i].write.SaveJournal? ==> items[i].write.state == items[i].mem)
  }

  lemma RestoreKin(d: Disk, j: Journal, h: Host)
    requires j.tx.Some?
    ensures var plan := RestorePlan(d, j, h);
            KinItems(j, plan.items) && Kin(j, plan.mem) && plan.mem.phase in {j.phase, Phase.RolledBack}
  {
    hide Health;
  }

  lemma RollbackKin(d: Disk, j: Journal, h: Host)
    requires j.tx.Some? && Open(j.phase)
    ensures var plan := RollbackPlan(d, j, h);
            KinItems(j, plan.items) && Kin(j, plan.mem) && plan.mem.phase != Phase.Committed
  {
    RestoreKin(d, j, h);
    if h.clock.Some? {
      RestoreKin(d, Intent(j, h.clock.value.third), h);
    }
    hide RestorePlan;
  }

  lemma JudgedKin(j: Journal, evidence: Option<Evidence>, now: nat, p: Policy)
    requires j.tx.Some? && j.phase == Phase.Trial
    ensures var v := Judge(j.tx.value, evidence, now, p); var b := Judged(j, v);
            && Kin(j, b)
            && (!v.Commit? ==> b.phase == Phase.Trial && b.tx.Some? && b.tx.value.to == j.tx.value.to && b.installed == j.installed)
            && (evidence.None? ==> !v.Commit?)
  {
  }

  /** A plan of the judged journal, after its save. */
  lemma KinAfter(j: Journal, b: Journal, saved: seq<Item>, rest: seq<Item>)
    requires Kin(j, b) && b.installed == j.installed && (saved == [] || saved == [Save(b)]) && KinItems(b, rest)
    ensures KinItems(j, saved + rest)
  {
  }

  lemma TrialKin(p: Policy, d: Disk, j: Journal, h: Host)
    requires j.tx.Some? && j.phase == Phase.Trial
    ensures var plan := TrialPlan(d, j, h, p);
            KinItems(j, plan.items) && Kin(j, plan.mem) && (plan.end.Failed? ==> plan.mem.phase != Phase.Committed)
  {
    RollbackKin(d, j, h);
    if h.trial.Some? {
      var evidence := TrialEvidence(d.active, j.tx.value, h.trial.value);
      var now := if h.clock.Some? then h.clock.value.first else 0;
      var v := Judge(j.tx.value, evidence, now, p);
      JudgedKin(j, evidence, now, p);
      var b := Judged(j, v);
      var saved := if v.Keep? then [] else [Save(b)];
      if !v.Commit? {
        RollbackKin(d, b, h);
        hide RollbackPlan;
        KinAfter(j, b, saved, RollbackPlan(d, b, h).items);
        KinAfter(j, b, saved, []);
        assert saved + [] == saved;
      }
    }
    hide RollbackPlan, TrialEvidence, Judge, Judged;
  }

  lemma OpenKin(p: Policy, d: Disk, j: Journal, h: Host)
    requires j.tx.Some? && Open(j.phase)
    ensures var plan := ReconcilePlan(d, j, h, p);
            KinItems(j, plan.items) && Kin(j, plan.mem) && (plan.end.Failed? ==> plan.mem.phase != Phase.Committed)
  {
    hide RollbackPlan, TrialPlan, Stopped, StopAcknowledged, Completed;
    if j.phase == Phase.Trial {
      TrialKin(p, d, j, h);
    }
    RollbackKin(d, j, h);
  }

  lemma KinMild(j: Journal, items: seq<Item>)
    requires KinItems(j, items) && j.tx.Some? && j.installed != j.tx.value.to
    ensures Mild(items)
  {
  }

  lemma TidyMild(mem: Journal)
    ensures Mild(Tidy(mem))
  {
  }

  lemma SettledMild(plan: Plan)
    requires Mild(plan.items) && (plan.end.Failed? && Latches(plan.mem, plan.end.error) ==> !Dead(Latched(plan.mem)))
    ensures Mild(Settled(plan).items)
  {
    hide Mild, LatchItems, Tidy, Latches;
    if plan.end.Finished? {
      TidyMild(plan.mem);
      MildConcat(plan.items, Tidy(plan.mem));
    } else {
      MildLatch(plan.mem, plan.end.error);
      MildConcat(plan.items, LatchItems(plan.mem, plan.end.error));
    }
  }

  lemma ReconcileMild(p: Policy, d: Disk, m: Journal, h: Host)
    requires (Terminal(m.phase) ==> d.active == m.installed.digest)
    requires m.tx.Some? && m.phase != Phase.Committed ==> m.installed != m.tx.value.to
    requires Open(m.phase) ==> m.tx.Some?
    requires !(m.phase == Phase.Committed && h.activeFault == Some(Recovery))
    ensures Mild(Settled(ReconcilePlan(d, m, h, p)).items)
  {
    var plan := ReconcilePlan(d, m, h, p);
    if Open(m.phase) {
      OpenKin(p, d, m, h);
      KinMild(m, plan.items);
    } else {
      assert plan.items == [];
    }
    hide ReconcilePlan, Mild;
    SettledMild(plan);
  }

  /** What the invariant says about a loadable disk, as far as latching goes. */
  predicate Alive(d: Disk) {
    var j := d.journal;
    && !Dead(j)
    && (Terminal(j.phase) ==> d.active == j.installed.digest)
    && (j.tx.Some? && j.phase != Phase.Committed ==> j.installed != j.tx.value.to)
    && (j.phase == Phase.Committed ==> j.tx.Some? && j.installed == j.tx.value.to)
    && (Open(j.phase) ==> j.tx.Some?)
  }

  lemma LoadableAlive(p: Policy, env: Env, s: State)
    requires Inv(p, env, s) && Loads(p, s.disk)
    ensures Alive(s.disk)
  {
    hide HistInv, TrustKept, RemoteValid, RootsStored, CacheStored, ObjectsStored, Snapshot;
    assert TransactionValid(s.disk.journal);
  }

  lemma LeaveMild(w: Write, mem: Journal)
    requires w.SaveJournal? ==> !Dead(w.state)
    ensures Mild([Leave(w, mem)])
  {
  }

  lemma ReconcileScriptMild(p: Policy, d: Disk, boot: bool, h: Host)
    requires Alive(d) && !ReconcileKills(p, d, h)
    ensures Mild(ReconcileScript(p, d, boot, h).items)
  {
    hide Settled, ReconcilePlan, Mild, BootItems, Tidy, Written, Dead;
    var j := d.journal;
    var m := RecoverDownload(j);
    var saves := if m == j then [] else [Leave(SaveJournal(m), m)];
    var first := BootItems(boot, j) + saves;
    assert Mild(first) by {
      assert Mild(BootItems(boot, j)) && Mild([]) by {
        BootMild(boot, j);
      }
      LeaveMild(SaveJournal(m), m) by {
        RepairedAlive(j);
      }
      MildConcat(BootItems(boot, j), saves);
    }
    var gate := IdleGate(p, d, h.activeFault);
    if gate == Ok(Gate.Idle) {
      BootMild(boot, j);
      TidyMild(j);
      MildConcat(BootItems(boot, j), Tidy(j));
    } else if gate == Ok(Proceed) && !d.latched {
      FirstDisk(d, boot, m);
      RepairedAlive(j);
      GateEnabled(p, d, h.activeFault);
      ReconcileMild(p, Written(d, first), m, h);
      MildConcat(first, Settled(ReconcilePlan(Written(d, first), m, h, p)).items);
    } else {
      BootMild(boot, j);
    }
  }

  lemma BootMild(boot: bool, j: Journal)
    ensures Mild(BootItems(boot, j)) && Mild([])
  {
  }

  lemma RepairedAlive(j: Journal)
    ensures var m := RecoverDownload(j);
            m.phase == j.phase && m.tx == j.tx && m.installed == j.installed && (Dead(m) <==> Dead(j))
  {
  }

  /** The first items move no pointer. */
  lemma FirstDisk(d: Disk, boot: bool, m: Journal)
    ensures var first := BootItems(boot, d.journal) + (if m == d.journal then [] else [Leave(SaveJournal(m), m)]);
            Written(d, first).active == d.active && (m == d.journal ==> Written(d, first).journal == d.journal)
  {
    var a := BootItems(boot, d.journal);
    var b := if m == d.journal then [] else [Leave(SaveJournal(m), m)];
    assert Writes(a + b) == Writes(a) + Writes(b);
    ApplyAllConcat(d, Writes(a), Writes(b));
    ActiveStays(d, Writes(a));
    ActiveStays(ApplyAll(d, Writes(a)), Writes(b));
    if boot {
      assert Writes(a)[1..] == [];
    }
  }

  lemma {:induction false} ActiveStays(d: Disk, ws: seq<Write>)
    requires forall i | 0 <= i < |ws| :: !ws[i].PointActive?
    ensures ApplyAll(d, ws).active == d.active
    decreases |ws|
  {
    if ws != [] {
      ActiveStays(Apply(d, ws[0]), ws[1..]);
    }
  }

  /** With an unverifiable pointer a settled, unlatched host goes on only if updates are enabled. */
  lemma GateEnabled(p: Policy, d: Disk, fault: Option<Error>)
    requires IdleGate(p, d, fault) == Ok(Proceed) && !d.latched
    ensures fault.Some? ==> p.enabled
  {
  }

  // ---- fetching ---------------------------------------------------------------------------------------------------

  /** Every journal written is between transactions, on every path. */
  lemma CaptureMild(j: Journal, initial: Root, files: Inventory)
    requires Terminal(j.phase)
    ensures var plan := CapturePlan(j, initial, files); Mild(plan.items) && MemsSettled(plan.items) && TrustMoved(j, plan.mem)
  {
    hide Continues, SelfSigned;
  }

  lemma RefreshMild(d: Disk, j: Journal, files: Inventory, nonce: string, publishing: bool)
    requires Terminal(j.phase)
    ensures var plan := Refreshed(d, j, files, nonce, publishing);
            Mild(plan.items) && MemsSettled(plan.items) && TrustMoved(j, plan.mem)
  {
  }

  /** Only roots and cache differ. */
  predicate TrustMoved(j: Journal, m: Journal) {
    m == j.(roots := m.roots, cache := m.cache, inventory := m.inventory)
  }

  predicate MemsSettled(items: seq<Item>) {
    forall i | 0 <= i < |items| :: Terminal(items[i].mem.phase)
  }

  lemma {:induction false} GuardedMild(d: Disk, items: seq<Item>, l: Load)
    requires Mild(items) && MemsSettled(items)
    ensures Mild(Guarded(d, items, l))
    decreases |l.visits|, 2, |items|
  {
    hide LoadPlan;
    if items != [] {
      var next := Apply(d, items[0].write);
      assert MildItem(items[0]);
      LoadMild(d, items[0].mem, l);
      LoadMild(next, items[0].mem, l);
      assert forall i | 0 <= i < |items[1..]| :: items[1..][i] == items[i + 1];
      GuardedMild(next, items[1..], l);
      var first := Guarded(d, items, l)[0];
      assert first.write == items[0].write && first.fault.Rescued?;
      assert MildItem(first);
      assert Guarded(d, items, l) == [first] + Guarded(next, items[1..], l);
      hide MildItem, Guarded;
      MildConcat([first], Guarded(next, items[1..], l));
    }
  }

  lemma {:induction false} LoadMild(d: Disk, j: Journal, l: Load)
    requires Terminal(j.phase)
    ensures var plan := LoadPlan(d, j, l).plan; Mild(plan.items) && TrustMoved(j, plan.mem)
    decreases |l.visits|, 1, 0
  {
    hide CapturePlan, Refreshed, Guarded, Written, Mild, MemsSettled;
    var captured := CapturePlan(j, l.initial, l.client.files);
    var d1 := Written(d, captured.items);
    CaptureMild(j, l.initial, l.client.files);
    if l.visits == [] {
      RefreshMild(d1, captured.mem, l.client.files, l.finishing, l.publishing);
      var refreshed := Refreshed(d1, captured.mem, l.client.files, l.finishing, l.publishing);
      MildConcat(captured.items, refreshed.items);
    } else if captured.end.Failed? {
      LoadMild(d, j, Aborted(l));
    } else {
      var begun := Begun(l);
      RefreshMild(d1, captured.mem, l.client.files, l.visits[0].nonce, begun.publishing);
      var refreshed := Refreshed(d1, captured.mem, l.client.files, l.visits[0].nonce, begun.publishing);
      var rest := LoadPlan(Written(d1, refreshed.items), refreshed.mem, NextLoad(begun, refreshed));
      LoadMild(Written(d1, refreshed.items), refreshed.mem, NextLoad(begun, refreshed));
      var a, b := Guarded(d, captured.items, Aborted(l)), Guarded(d1, refreshed.items, Aborted(begun));
      GuardedMild(d, captured.items, Aborted(l));
      GuardedMild(d1, refreshed.items, Aborted(begun));
      MildConcat(a, b);
      MildConcat(a + b, rest.plan.items);
      assert LoadPlan(d, j, l).plan == Before(a + b, rest.plan);
    }
  }

  lemma PublishMild(d: Disk, j: Journal, files: Inventory, nonce: string)
    requires Terminal(j.phase)
    ensures Mild(PublishPlan(d, j, files, nonce).items) && TrustMoved(j, PublishPlan(d, j, files, nonce).mem)
  {
    RefreshMild(d, j, files, nonce, true);
  }

  lemma ReleaseMild(p: Policy, d: Disk, j: Journal, f: Fetch, files: Inventory)
    requires Terminal(j.phase)
    ensures Mild(ReleasePlan(p, d, j, f, files).items)
  {
    hide PublishPlan, Mild, ValidRelease, Written;
    BootMild(false, j);
    if f.repository.Loaded? {
      var published := PublishPlan(d, j, files, f.published);
      PublishMild(d, j, files, f.published);
      var d1, m, offer := Written(d, published.items), published.mem, f.repository.offer;
      var rest := AdoptPlan(p, d1, m, f, files, offer);
      var accepted := if offer.Some? then AcceptRelease(p, m, offer.value, f.acceptedAt) else Err(PolicyRejected);
      if accepted.Ok? {
        var committed := PublishPlan(d1, accepted.value, files, f.accepted);
        PublishMild(d1, accepted.value, files, f.accepted);
        LeaveMild(PutObject(offer.value.digest), committed.mem);
        MildConcat(committed.items, []);
        MildConcat(committed.items, [Leave(PutObject(offer.value.digest), committed.mem)]);
      }
      MildConcat(published.items, rest.items);
    }
  }

  lemma ReleaseAdopts(p: Policy, d: Disk, j: Journal, f: Fetch, files: Inventory)
    requires Terminal(j.phase) && ReleasePlan(p, d, j, f, files).end.Finished?
    ensures f.repository.Loaded? && f.repository.offer.Some?
    ensures var o, m := f.repository.offer.value, ReleasePlan(p, d, j, f, files).mem;
            && m.seenSequence == o.release.sequence && m.seenDigest == o.digest && o.release.minRollback <= j.installed.sequence
            && m.hardFloor == Max(Max(j.hardFloor, o.release.minRollback), p.minimumSequence)
            && m.phase == j.phase && m.installed == j.installed && m.failed == j.failed
  {
    hide PublishPlan, Written, ValidRelease;
    var published := PublishPlan(d, j, files, f.published);
    PublishMild(d, j, files, f.published);
    var d1, m, offer := Written(d, published.items), published.mem, f.repository.offer;
    var accepted := AcceptRelease(p, m, offer.value, f.acceptedAt);
    PublishMild(d1, accepted.value, files, f.accepted);
  }

  /** After a finished fetch the guard of `prepare` asks about the offer and the journal before the fetch. */
  lemma FetchedMay(p: Policy, d: Disk, j: Journal, s: Sweep, f: Fetch)
    requires Terminal(j.phase) && p.minimumSequence <= j.hardFloor <= j.installed.sequence
    requires FetchedPlan(p, d, j, s, f).end.Finished?
    ensures var m := FetchedPlan(p, d, j, s, f).mem; MayPrepare(m, p, Candidate(m)) <==> OffersNewer(j, f)
  {
    hide LoadPlan, ReleasePlan, Written, Opening, GenerationItems, ObjectItems, Mild;
    var d1 := Written(d, CollectPlan(j, s).items);
    var d2 := Written(d1, StagePlan(d1, j, f.staging).items);
    var loading := LoadPlan(d2, j, Opening(p, j, f));
    LoadMild(d2, j, Opening(p, j, f));
    ReleaseAdopts(p, Written(d2, loading.plan.items), loading.plan.mem, f, loading.files);
  }

  lemma FetchMild(p: Policy, d: Disk, j: Journal, f: Fetch)
    requires Terminal(j.phase)
    ensures Mild(FetchPlan(p, d, j, f).items)
  {
    hide LoadPlan, ReleasePlan, Mild, Written, Opening;
    var staged := StagePlan(d, j, f.staging);
    var d1 := Written(d, staged.items);
    var loading := LoadPlan(d1, j, Opening(p, j, f));
    StageMild(d, j, f.staging);
    hide StagePlan;
    LoadMild(d1, j, Opening(p, j, f));
    var release := ReleasePlan(p, Written(d1, loading.plan.items), loading.plan.mem, f, loading.files);
    ReleaseMild(p, Written(d1, loading.plan.items), loading.plan.mem, f, loading.files);
    MildConcat(loading.plan.items, release.items);
    MildConcat(staged.items, DownloadPlan(p, d1, j, f).items);
  }

  lemma StageMild(d: Disk, j: Journal, staging: string)
    ensures Mild(StagePlan(d, j, staging).items) && Mild([])
  {
  }

  lemma {:induction false} DropsMild(j: Journal, generations: seq<string>, objects: seq<Digest>)
    ensures Mild(GenerationItems(j, generations)) && Mild(ObjectItems(j, objects))
    decreases |generations| + |objects|
  {
    if generations != [] {
      DropsMild(j, generations[1..], objects);
      LeaveMild(DropGeneration(generations[0]), j);
      MildConcat([Leave(DropGeneration(generations[0]), j)], GenerationItems(j, generations[1..]));
    }
    if objects != [] {
      DropsMild(j, generations, objects[1..]);
      LeaveMild(DropObject(objects[0]), j);
      MildConcat([Leave(DropObject(objects[0]), j)], ObjectItems(j, objects[1..]));
    }
  }

  lemma FetchedMild(p: Policy, d: Disk, j: Journal, s: Sweep, f: Fetch)
    requires Terminal(j.phase)
    ensures Mild(FetchedPlan(p, d, j, s, f).items)
  {
    hide FetchPlan, Mild, GenerationItems, ObjectItems, Written;
    var a, b := GenerationItems(j, s.generations), ObjectItems(j, s.objects);
    DropsMild(j, s.generations, s.objects);
    MildConcat(a, b);
    FetchMild(p, Written(d, a + b), j, f);
    MildConcat(a + b, FetchPlan(p, Written(d, a + b), j, f).items);
  }

  // ---- preparing ------------------------------------------------------------------------------------------------------

  /** Only an unverifiable pointer latches a settled journal here, and only a committed one dies of it. */
  lemma PrepareMild(p: Policy, d: Disk, j: Journal, h: Host)
    requires Terminal(j.phase) && (j.tx.Some? && j.phase != Phase.Committed ==> j.installed != j.tx.value.to)
    requires !(j.phase == Phase.Committed && MayPrepare(j, p, Candidate(j)) && h.activeFault == Some(Recovery))
    ensures Mild(Settled(PreparePlan(d, j, h, p, Candidate(j))).items)
  {
    var plan := PreparePlan(d, j, h, p, Candidate(j));
    assert Mild(plan.items);
    assert plan.end.Failed? && Latches(plan.mem, plan.end.error) ==> !Dead(Latched(plan.mem));
    hide PreparePlan, Mild, MayPrepare;
    SettledMild(plan);
  }

  lemma FollowingMild(p: Policy, d: Disk, m: Journal, h: Host)
    requires Terminal(m.phase) && (m.tx.Some? && m.phase != Phase.Committed ==> m.installed != m.tx.value.to)
    requires !(m.phase == Phase.Committed && MayPrepare(m, p, Candidate(m)) && h.activeFault == Some(Recovery))
    ensures Mild(Following(p, d, m, h))
  {
    hide PreparePlan, Settled, Mild, MayPrepare;
    var current := MarkUpToDate(m);
    PrepareMild(p, d, m, h);
    LeaveMild(SaveJournal(current), current) by {
      assert current.phase == m.phase;
    }
    TidyMild(current);
    MildConcat([Leave(SaveJournal(current), current)], Tidy(current));
  }

  // ---- whole commands -----------------------------------------------------------------------------------------------------

  /** The journal a finished fetch leaves in memory differs from the old one in trust only. */
  lemma FetchedKeeps(p: Policy, env: Env, s: State, sweep: Sweep, f: Fetch)
    requires ValidPolicy(p) && Inv(p, env, s) && Loads(p, s.disk) && s.hist.note.None? && Terminal(s.disk.journal.phase)
    ensures var j := s.disk.journal; var plan := FetchedPlan(p, s.disk, j, sweep, f); var d := Written(s.disk, plan.items);
            plan.end.Finished? ==>
              && plan.mem.phase == j.phase && plan.mem.tx == j.tx && plan.mem.installed == j.installed
              && d.journal == plan.mem && d.active == s.disk.active
  {
    hide Inv, ValidPolicy, Holding, FetchedPlan, Loads, Validate, Safe;
    var j := s.disk.journal;
    var plan := FetchedPlan(p, s.disk, j, sweep, f);
    LoadedHolds(p, env, s);
    FetchedPlanSafe(p, env, s, j, sweep, f);
    if plan.end.Finished? {
      DownloadedReady(p, env, s, plan);
    }
  }

  lemma FloorsHold(p: Policy, env: Env, s: State)
    requires Inv(p, env, s) && Loads(p, s.disk)
    ensures p.minimumSequence <= s.disk.journal.hardFloor <= s.disk.journal.installed.sequence
  {
    hide HistInv, TrustKept, RemoteValid, TransactionValid, Pointer, RootsStored, CacheStored, ObjectsStored, Snapshot;
  }

  lemma UpgradeMild(p: Policy, env: Env, s: State, sweep: Sweep, f: Fetch, h: Host)
    requires ValidPolicy(p) && Inv(p, env, s) && Loads(p, s.disk) && s.hist.note.None?
    requires p.enabled && !UpgradeKills(p, s.disk, sweep, f, h)
    ensures Mild(UpgradeScript(p, s.disk, sweep, f, h).items)
  {
    hide Inv, ValidPolicy, Loads, FetchedPlan, UpgradeScript, Following, MayPrepare, Mild, Written, OffersNewer, Dead;
    var d := s.disk;
    LoadableAlive(p, env, s);
    if d.latched || !Terminal(d.journal.phase) {
      BootMild(false, d.journal);
      NoUpgrade(p, d, sweep, f, h);
    } else {
      UpgradeItems(p, d, sweep, f, h);
      FetchedMild(p, d, d.journal, sweep, f);
      var fetched := FetchedPlan(p, d, d.journal, sweep, f);
      if fetched.end.Finished? {
        FetchedKeeps(p, env, s, sweep, f);
        FloorsHold(p, env, s);
        FetchedMay(p, d, d.journal, sweep, f);
        var d1 := Written(d, fetched.items);
        FollowingMild(p, d1, fetched.mem, h);
        MildConcat(fetched.items, Following(p, d1, fetched.mem, h));
      }
    }
  }

  lemma NoUpgrade(p: Policy, d: Disk, sweep: Sweep, f: Fetch, h: Host)
    requires d.latched || !Terminal(d.journal.phase)
    ensures UpgradeScript(p, d, sweep, f, h).items == [] && !UpgradeKills(p, d, sweep, f, h)
  {
  }

  lemma DownloadMild(p: Policy, d: Disk, sweep: Sweep, f: Fetch)
    requires Alive(d)
    ensures Mild(FetchScript(p, d, sweep, f).items)
  {
    hide FetchedPlan, Mild, Tidy;
    BootMild(false, d.journal);
    if !d.latched && Terminal(d.journal.phase) {
      var fetched := FetchedPlan(p, d, d.journal, sweep, f);
      FetchedMild(p, d, d.journal, sweep, f);
      TidyMild(fetched.mem);
      MildConcat(fetched.items, Tidy(fetched.mem));
    }
  }

  lemma ResetMild(p: Policy, d: Disk, confirmed: bool, now: nat)
    requires Alive(d)
    ensures Mild(Dispatch(p, d, ResetTimeFloor(confirmed, now)).items)
  {
    hide Loads, Validate;
  }

  lemma DispatchMild(p: Policy, env: Env, s: State, c: Command)
    requires ValidPolicy(p) && Inv(p, env, s) && Loads(p, s.disk) && !c.Remote? && !Kills(p, s.disk, c)
    requires !c.Reconcile? ==> s.hist.note.None?
    ensures Mild(Dispatch(p, s.disk, c).items)
  {
    LoadableAlive(p, env, s);
    hide Inv, ValidPolicy, Loads, Mild, Alive, ReconcileScript, FetchScript, UpgradeScript, ReconcileKills, UpgradeKills;
    var d := s.disk;
    BootMild(false, d.journal);
    match c
    case Reconcile(boot, h) => ReconcileScriptMild(p, d, boot, h);
    case Fetching(sweep, f) => DownloadMild(p, d, sweep, f);
    case Upgrade(sweep, f, h) =>
      if p.enabled {
        UpgradeMild(p, env, s, sweep, f, h);
      }
    case ResetTimeFloor(confirmed, now) => ResetMild(p, d, confirmed, now);
    case ShowStatus => TidyMild(d.journal);
  }

  lemma AcceptMild(p: Policy, d: Disk, request: Request, now: nat)
    requires Loads(p, d) && Alive(d)
    ensures var script := AcceptScript(p, d, request, now);
            && Mild(script.items)
            && (!script.failed ==>
                  var d1 := Written(d, script.items);
                  d1.journal.phase == d.journal.phase && d1.journal.tx == d.journal.tx
                  && d1.journal.installed == d.journal.installed && d1.latched == d.latched && d1.active == d.active)
  {
    hide Loads;
    var script := AcceptScript(p, d, request, now);
    var accepted := Accept(p, d.journal, request, now);
    if !script.failed {
      var j := accepted.value;
      assert Writes(script.items) == [CreatePending, SaveJournal(j)];
      assert [CreatePending, SaveJournal(j)][1..] == [SaveJournal(j)] && [SaveJournal(j)][1..] == [];
      var d1 := Apply(Apply(d, CreatePending), SaveJournal(j));
      assert ApplyAll(d, [CreatePending, SaveJournal(j)]) == ApplyAll(Apply(d, CreatePending), [SaveJournal(j)]);
      assert Written(d, script.items) == ApplyAll(d1, []);
    }
  }

  lemma ReportMild(p: Policy, d: Disk, failed: bool)
    requires !Dead(d.journal)
    ensures Mild(ReportScript(p, d, failed).items)
  {
    hide Loads;
    assert Reported(d.journal, failed).phase == d.journal.phase;
  }

  /** The apply of an accepted request, and its report. */
  lemma AppliedLives(p: Policy, env: Env, s: State, c: Command, io: seq<Io>)
    requires ValidPolicy(p) && Inv(p, env, s) && Loads(p, s.disk) && s.hist.note.None? && c.Remote?
    requires !UpgradeKills(p, s.disk, c.sweep, c.fetch, c.host)
    ensures !Dead(ApplyAll(s.disk, Applied(p, s.disk, c, io)).journal)
  {
    LoadableAlive(p, env, s);
    hide Inv, ValidPolicy, Loads, Mild, Dispatch, ReportScript, UpgradeKills, Living, Execute;
    var d := s.disk;
    var upgrade := Upgrade(c.sweep, c.fetch, c.host);
    DispatchMild(p, env, s, upgrade);
    var applying := Dispatch(p, d, upgrade);
    var applied := Execute(applying.items, io);
    ExecuteLiving(applying.items, io);
    LivingEnds(d, applied.writes);
    var d1 := ApplyAll(d, applied.writes);
    var report := ReportScript(p, d1, applying.failed || applied.failed);
    ReportMild(p, d1, applying.failed || applied.failed);
    ExecuteLiving(report.items, applied.io);
    LivingEnds(d1, Execute(report.items, applied.io).writes);
    ApplyAllConcat(d, applied.writes, Execute(report.items, applied.io).writes);
  }

  lemma RemoteLives(p: Policy, env: Env, s: State, c: Command, io: seq<Io>)
    requires ValidPolicy(p) && Inv(p, env, s) && Loads(p, s.disk) && CommandOk(env, c) && Set(env, s.hist) && c.Remote?
    requires !Kills(p, s.disk, c)
    ensures !Dead(ApplyAll(s.disk, Performed(p, s.disk, c, io)).journal)
  {
    LoadableAlive(p, env, s);
    hide Inv, ValidPolicy, Loads, Mild, Alive, AcceptScript, UpgradeKills, Living, Execute, Safe, After, Applied, HostOk;
    var d := s.disk;
    var accepting := AcceptScript(p, d, c.request, c.now);
    var accepted := Execute(accepting.items, io);
    AcceptMild(p, d, c.request, c.now);
    ExecuteLiving(accepting.items, io);
    DeadOrAlive(d);
    LivingEnds(d, accepted.writes);
    if !(accepted.off || accepted.failed || accepting.failed) {
      AcceptScriptSafe(p, env, s, c.request, c.now);
      ExecuteDone(accepting.items, io);
      ExecuteSafe(p, env, s, accepting.items, io);
      AllSafeEnds(p, env, s, accepted.writes);
      var t := DoAll(s, accepted.writes);
      Guarantees.LoadsIff(p, env, t);
      assert t == After(s, accepting.items) by {
        AfterWrites(s, accepting.items);
      }
      AppliedLives(p, env, t, c, accepted.io);
      ApplyAllConcat(d, accepted.writes, Applied(p, t.disk, c, accepted.io));
    }
  }

  lemma AfterWrites(s: State, items: seq<Item>)
    ensures After(s, items) == DoAll(s, Writes(items))
  {
  }

  lemma DeadOrAlive(d: Disk)
    requires Alive(d)
    ensures !Dead(d.journal)
  {
  }

  lemma PerformedLives(p: Policy, env: Env, s: State, c: Command, io: seq<Io>)
    requires ValidPolicy(p) && Inv(p, env, s) && Loads(p, s.disk) && CommandOk(env, c)
    requires !Kills(p, s.disk, c)
    ensures !Dead(ApplyAll(s.disk, Performed(p, s.disk, c, io)).journal)
  {
    var t := Begin(p, env, s, c);
    BeginInv(p, env, s, c);
    BeginSet(p, env, s, c);
    hide Inv, ValidPolicy, Loads, Mild, HostOk, Begin, Quiet, Noting, Dispatch, Living, Execute, Kills;
    if c.Remote? {
      hide Performed;
      RemoteLives(p, env, t, c, io);
    } else {
      DispatchMild(p, env, t, c);
      ExecuteLiving(Dispatch(p, s.disk, c).items, io);
      LoadableAlive(p, env, s);
      LivingEnds(s.disk, Execute(Dispatch(p, s.disk, c).items, io).writes);
    }
  }

  // ---- the killing commands do kill ------------------------------------------------------------------------------------------

  /** Every write of the command gets done, at least up to the report of a remote one. */
  predicate Undisturbed(p: Policy, d: Disk, c: Command, io: seq<Io>) {
    if !c.Remote? then Uninterrupted(Dispatch(p, d, c).items, io)
    else
      var accepting := AcceptScript(p, d, c.request, c.now).items;
      var applying := Dispatch(p, Written(d, accepting), Upgrade(c.sweep, c.fetch, c.host)).items;
      Uninterrupted(accepting, io) && Uninterrupted(applying, io[|accepting|..])
  }

  /** The latch of a committed journal, after anything else. */
  lemma LatchedEnds(d: Disk, first: seq<Item>, m: Journal)
    requires m.phase == Phase.Committed && m.tx.Some? && m.installed == m.tx.value.to
    ensures Dead(Written(d, first + LatchItems(m, Recovery)).journal)
  {
    var items := LatchItems(m, Recovery);
    var saved := SaveJournal(Latched(m));
    assert Writes(first + items) == Writes(first) + Writes(items);
    ApplyAllConcat(d, Writes(first), Writes(items));
    var d1 := ApplyAll(d, Writes(first));
    assert Writes(items) == [saved, RequireRecovery];
    assert [saved, RequireRecovery][1..] == [RequireRecovery] && [RequireRecovery][1..] == [];
    assert ApplyAll(d1, Writes(items)) == ApplyAll(Apply(Apply(d1, saved), RequireRecovery), []);
  }

  lemma ReconcileDies(p: Policy, d: Disk, boot: bool, h: Host)
    requires Loads(p, d) && Alive(d) && ReconcileKills(p, d, h)
    ensures Dead(Written(d, Dispatch(p, d, Reconcile(boot, h)).items).journal)
  {
    hide Loads, BootItems, LatchItems, Written;
    var m := RecoverDownload(d.journal);
    var first := BootItems(boot, d.journal) + (if m == d.journal then [] else [Leave(SaveJournal(m), m)]);
    RepairedAlive(d.journal);
    ScriptParts(p, d, boot, h);
    assert ReconcilePlan(Written(d, first), m, h, p) == Stop(m, Recovery);
    assert [] + LatchItems(m, Recovery) == LatchItems(m, Recovery);
    LatchedEnds(d, first, m);
  }

  lemma PrepareFaults(p: Policy, d: Disk, m: Journal, h: Host)
    requires Terminal(m.phase) && MayPrepare(m, p, Candidate(m)) && h.activeFault == Some(Recovery)
    ensures Following(p, d, m, h) == LatchItems(m, Recovery)
  {
    hide LatchItems;
    assert PreparePlan(d, m, h, p, Candidate(m)) == Stop(m, Recovery);
    assert [] + LatchItems(m, Recovery) == LatchItems(m, Recovery);
  }

  lemma UpgradeFaults(p: Policy, d: Disk, sweep: Sweep, f: Fetch, h: Host)
    requires Loads(p, d) && Alive(d) && UpgradeKills(p, d, sweep, f, h)
    requires var m := FetchedPlan(p, d, d.journal, sweep, f).mem;
             m.phase == d.journal.phase && m.tx == d.journal.tx && m.installed == d.journal.installed
    requires p.minimumSequence <= d.journal.hardFloor <= d.journal.installed.sequence
    ensures Dead(Written(d, Dispatch(p, d, Upgrade(sweep, f, h)).items).journal)
  {
    hide Loads, FetchedPlan, LatchItems, Written, MayPrepare, Following, UpgradeScript, Dead, OffersNewer;
    FetchedMay(p, d, d.journal, sweep, f);
    var fetched := FetchedPlan(p, d, d.journal, sweep, f);
    UpgradeItems(p, d, sweep, f, h);
    PrepareFaults(p, Written(d, fetched.items), fetched.mem, h);
    LatchedEnds(d, fetched.items, fetched.mem);
  }

  lemma UpgradeDies(p: Policy, env: Env, s: State, sweep: Sweep, f: Fetch, h: Host)
    requires ValidPolicy(p) && Inv(p, env, s) && Loads(p, s.disk) && s.hist.note.None?
    requires UpgradeKills(p, s.disk, sweep, f, h)
    ensures Dead(Written(s.disk, Dispatch(p, s.disk, Upgrade(sweep, f, h)).items).journal)
  {
    hide Inv, ValidPolicy, Loads, FetchedPlan, Written, MayPrepare, Dead, Dispatch, Alive, OffersNewer;
    LoadableAlive(p, env, s);
    FloorsHold(p, env, s);
    FetchedKeeps(p, env, s, sweep, f);
    UpgradeFaults(p, s.disk, sweep, f, h);
  }

  lemma RemoteDies(p: Policy, env: Env, s: State, c: Command, io: seq<Io>)
    requires ValidPolicy(p) && Inv(p, env, s) && Loads(p, s.disk) && CommandOk(env, c) && Set(env, s.hist) && c.Remote?
    requires Kills(p, s.disk, c) && Undisturbed(p, s.disk, c, io)
    ensures Dead(ApplyAll(s.disk, Performed(p, s.disk, c, io)).journal)
  {
    LoadableAlive(p, env, s);
    hide Inv, ValidPolicy, Loads, Alive, AcceptScript, UpgradeKills, Execute, Safe, After, HostOk, Dispatch, Uninterrupted;
    var d := s.disk;
    var accepting := AcceptScript(p, d, c.request, c.now);
    AcceptMild(p, d, c.request, c.now);
    AcceptScriptSafe(p, env, s, c.request, c.now);
    UninterruptedWrites(accepting.items, io);
    ExecuteSafe(p, env, s, accepting.items, io);
    AllSafeEnds(p, env, s, Writes(accepting.items));
    var t := After(s, accepting.items);
    AfterWrites(s, accepting.items);
    assert t.disk == Written(d, accepting.items);
    Guarantees.LoadsIff(p, env, t);
    AliveStays(d, t.disk);
    AppliedDies(p, env, t, c, io[|accepting.items|..]);
    ApplyAllConcat(d, Writes(accepting.items), Applied(p, t.disk, c, io[|accepting.items|..]));
  }

  lemma AliveStays(a: Disk, b: Disk)
    requires Alive(a) && b.journal.phase == a.journal.phase && b.journal.tx == a.journal.tx && b.journal.installed == a.journal.installed
    ensures !Dead(b.journal)
  {
  }

  lemma AppliedDies(p: Policy, env: Env, s: State, c: Command, io: seq<Io>)
    requires ValidPolicy(p) && Inv(p, env, s) && Loads(p, s.disk) && s.hist.note.None? && c.Remote?
    requires UpgradeKills(p, s.disk, c.sweep, c.fetch, c.host)
    requires Uninterrupted(Dispatch(p, s.disk, Upgrade(c.sweep, c.fetch, c.host)).items, io)
    ensures Dead(ApplyAll(s.disk, Applied(p, s.disk, c, io)).journal)
  {
    hide Inv, ValidPolicy, Dispatch, Uninterrupted, UpgradeKills, Execute;
    var d := s.disk;
    var applying := Dispatch(p, d, Upgrade(c.sweep, c.fetch, c.host));
    UpgradeDies(p, env, s, c.sweep, c.fetch, c.host);
    UninterruptedWrites(applying.items, io);
    var d1 := ApplyAll(d, Writes(applying.items));
    assert d1 == Written(d, applying.items);
    DeadNeverLoads(p, d1);
    var report := ReportScript(p, d1, applying.failed);
    assert report.items == [];
    assert Execute([], io[|applying.items|..]).writes == [] by {
      NothingExecuted(io[|applying.items|..]);
    }
    assert Writes(applying.items) + [] == Writes(applying.items);
  }

  lemma NothingExecuted(io: seq<Io>)
    ensures Execute([], io).writes == []
  {
  }

  lemma DeadNeverLoads(p: Policy, d: Disk)
    requires Dead(d.journal)
    ensures !Loads(p, d)
  {
    hide RemoteValid, RootsStored, CacheStored, ObjectsStored;
  }

  lemma PerformedDies(p: Policy, env: Env, s: State, c: Command, io: seq<Io>)
    requires ValidPolicy(p) && Inv(p, env, s) && Loads(p, s.disk) && CommandOk(env, c)
    requires Kills(p, s.disk, c) && Undisturbed(p, s.disk, c, io)
    ensures Dead(ApplyAll(s.disk, Performed(p, s.disk, c, io)).journal)
  {
    var t := Begin(p, env, s, c);
    BeginInv(p, env, s, c);
    BeginSet(p, env, s, c);
    LoadableAlive(p, env, s);
    hide Inv, ValidPolicy, Loads, HostOk, Begin, Quiet, Noting, Dispatch, Execute, Alive, Uninterrupted, ReconcileKills, UpgradeKills;
    if c.Remote? {
      hide Performed, Undisturbed;
      RemoteDies(p, env, t, c, io);
    } else {
      UninterruptedWrites(Dispatch(p, s.disk, c).items, io);
      if c.Reconcile? {
        ReconcileDies(p, s.disk, c.boot, c.host);
      } else {
        UpgradeDies(p, env, t, c.sweep, c.fetch, c.host);
      }
    }
  }

  lemma NextDisk(p: Policy, w: World, c: Command, io: seq<Io>)
    ensures Next(p, w, Run(c, io)).state.disk == ApplyAll(w.state.disk, Performed(p, w.state.disk, c, io))
  {
    DoAllDisk(Started(p, w, c), Performed(p, w.state.disk, c, io));
    BeginFrame(p, w.env, w.state, c);
    hide Performed, Begin;
  }

  /**
   * When a command makes a loadable disk unloadable, in terms of that disk and the host's answers: a
   * reconcile of a committed transaction past the gate, or an apply on one that reaches the pointer,
   * whose `active` object does not verify. However it is disturbed, no other command does; undisturbed,
   * these always do.
   */
  lemma UnloadableIff(p: Policy, w: World, c: Command, io: seq<Io>)
    ensures ValidPolicy(p) && Reachable(p, w) && CommandOk(w.env, c) && Loads(p, w.state.disk) ==>
              var after := Next(p, w, Run(c, io)).state.disk;
              && (!Kills(p, w.state.disk, c) ==> Loads(p, after))
              && (Undisturbed(p, w.state.disk, c, io) ==> (Kills(p, w.state.disk, c) <==> !Loads(p, after)))
  {
    if ValidPolicy(p) && Reachable(p, w) && CommandOk(w.env, c) && Loads(p, w.state.disk) {
      ReachableInv(p, w);
      ReachableStep(p, w, Run(c, io));
      Guarantees.LoadsUnlessDead(p, Next(p, w, Run(c, io)));
      hide Inv, ValidPolicy, Reachable, CommandOk, Loads, Kills, Undisturbed, Performed, Next, Dead;
      NextDisk(p, w, c, io);
      if !Kills(p, w.state.disk, c) {
        PerformedLives(p, w.env, w.state, c, io);
      } else if Undisturbed(p, w.state.disk, c, io) {
        PerformedDies(p, w.env, w.state, c, io);
      }
    }
  }
}
