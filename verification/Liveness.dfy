/**
 * Once reboots, power cuts and failed writes cease, every open transaction settles: each completed tick
 * ends a phase, makes the one outstanding restore request, or uses up time before a deadline.
 */
module Liveness {
  import opened Options
  import opened LocalPolicy
  import opened Trust
  import opened Journals
  import opened Disks
  import opened Hosts
  import opened Activate
  import opened Download
  import opened Runtime
  import opened Worlds
  import opened Commands
  import opened Runs
  import Guarantees

  // ---- the measure ------------------------------------------------------------------------------------

  function Stage(phase: Phase): nat {
    match phase
    case Prepared => 4
    case Stopping => 3
    case Trial => 2
    case RollbackIntent => 1
    case _ => 0
  }

  /** A restore still has to be requested in this boot. */
  function Unasked(j: Journal, boot: string): nat {
    if j.phase == Phase.RollbackIntent && j.tx.Some? && (!j.tx.value.recoveryRequested || j.tx.value.boot != boot)
    then 1 else 0
  }

  function Left(j: Journal, now: nat): nat {
    if j.tx.Some? && j.tx.value.deadline >= now then j.tx.value.deadline - now + 1 else 0
  }

  /** `b` at `later` is strictly nearer to the end than `a` at `now`. */
  predicate Nearer(a: Journal, now: nat, b: Journal, later: nat, boot: string) {
    || Stage(b.phase) < Stage(a.phase)
    || (Stage(b.phase) == Stage(a.phase) && Unasked(b, boot) < Unasked(a, boot))
    || (Stage(b.phase) == Stage(a.phase) && Unasked(b, boot) == Unasked(a, boot) && Left(b, later) < Left(a, now))
  }

  /** A process reads an advancing clock. */
  predicate Ticks(h: Host, now: nat) {
    h.clock.Some? ==>
      var c := h.clock.value; now < c.first && c.first <= c.second <= c.third <= c.fourth
  }

  function Later(h: Host, now: nat): nat {
    if h.clock.Some? then h.clock.value.fourth else now
  }

  // ---- one plan -----------------------------------------------------------------------------------------

  /** The journal on disk after `items`, up to the request record. */
  predicate Lands(d: Disk, items: seq<Item>, mem: Journal) {
    var j := Written(d, items).journal;
    j.phase == mem.phase && j.tx == mem.tx
  }

  lemma PreparedNearer(d: Disk, j: Journal, h: Host, boot: string, now: nat)
    requires j.phase == Phase.Prepared && j.tx.Some? && Ticks(h, now)
    ensures var plan := PreparedPlan(d, j, h);
            plan.end.Finished? ==> Nearer(j, now, plan.mem, Later(h, now), boot)
  {
  }

  lemma StoppingNearer(p: Policy, d: Disk, j: Journal, h: Host, boot: string, now: nat)
    requires j.phase == Phase.Stopping && j.tx.Some? && Ticks(h, now)
    ensures var plan := StoppingPlan(d, j, h, p);
            plan.end.Finished? ==> Nearer(j, now, plan.mem, Later(h, now), boot)
  {
    hide Stopped;
  }

  lemma RestoreNearer(d: Disk, j: Journal, h: Host, boot: string, now: nat)
    requires j.phase == Phase.RollbackIntent && j.tx.Some? && Ticks(h, now) && (h.boot.Some? ==> h.boot.value == boot)
    ensures var plan := RestorePlan(d, j, h);
            plan.end.Finished? ==> Nearer(j, now, plan.mem, Later(h, now), boot)
    ensures Stage(RestorePlan(d, j, h).mem.phase) <= 1
  {
    hide Health;
  }

  lemma TrialNearer(p: Policy, d: Disk, j: Journal, h: Host, boot: string, now: nat)
    requires j.phase == Phase.Trial && j.tx.Some? && Ticks(h, now) && (h.boot.Some? ==> h.boot.value == boot)
    ensures var plan := TrialPlan(d, j, h, p);
            plan.end.Finished? ==> Nearer(j, now, plan.mem, Later(h, now), boot)
  {
    hide TrialEvidence, RestorePlan;
    if h.clock.Some? {
      var evidence := if h.trial.Some? then TrialEvidence(d.active, j.tx.value, h.trial.value) else None;
      var judged := Judged(j, Judge(j.tx.value, evidence, h.clock.value.first, p));
      RestoreNearer(d, Intent(j, h.clock.value.third), h, boot, now);
      if judged.phase == Phase.Trial {
        RestoreNearer(d, Intent(judged, h.clock.value.third), h, boot, now);
      }
    }
  }

  lemma ReconcileNearer(p: Policy, d: Disk, j: Journal, h: Host, boot: string, now: nat)
    requires Open(j.phase) && Ticks(h, now) && (h.boot.Some? ==> h.boot.value == boot)
    ensures var plan := ReconcilePlan(d, j, h, p);
            plan.end.Finished? ==> Nearer(j, now, plan.mem, Later(h, now), boot)
  {
    hide PreparedPlan, StoppingPlan, TrialPlan, RestorePlan, Nearer;
    if j.tx.Some? {
      if j.phase == Phase.Prepared {
        PreparedNearer(d, j, h, boot, now);
      } else if j.phase == Phase.Stopping {
        StoppingNearer(p, d, j, h, boot, now);
      } else if j.phase == Phase.Trial {
        TrialNearer(p, d, j, h, boot, now);
      } else {
        RestoreNearer(d, j, h, boot, now);
      }
    }
  }

  // ---- what a finished plan leaves on disk -----------------------------------------------------------------

  /** The journal after a list of writes is the last one saved. */
  lemma {:induction false} LastSaved(d: Disk, items: seq<Item>, k: nat)
    requires k < |items| && items[k].write.SaveJournal?
    requires forall i | k < i < |items| :: !items[i].write.SaveJournal?
    ensures Written(d, items).journal == Snapshot(items[k].write.state)
    decreases |items|
  {
    assert Writes(items)[0] == items[0].write && Writes(items)[1..] == Writes(items[1..]);
    var next := Apply(d, items[0].write);
    assert Written(d, items) == Written(next, items[1..]);
    if k > 0 {
      hide Snapshot;
      LastSaved(next, items[1..], k - 1);
    } else {
      NoneSaved(next, items[1..]);
    }
  }

  lemma {:induction false} NoneSaved(d: Disk, items: seq<Item>)
    requires forall i | 0 <= i < |items| :: !items[i].write.SaveJournal?
    ensures Written(d, items).journal == d.journal
    decreases |items|
  {
    if items != [] {
      assert Writes(items)[0] == items[0].write && Writes(items)[1..] == Writes(items[1..]);
      NoneSaved(Apply(d, items[0].write), items[1..]);
    } else {
      assert Writes(items) == [];
    }
  }

  /** The memory of a plan is the last journal it saves, or the one it started from. */
  ghost predicate Faithful(items: seq<Item>, j: Journal, mem: Journal) {
    if forall i | 0 <= i < |items| :: !items[i].write.SaveJournal? then mem == j
    else exists k: nat :: SavesLast(items, mem, k)
  }

  predicate SavesLast(items: seq<Item>, mem: Journal, k: nat) {
    && k < |items| && items[k].write == SaveJournal(mem)
    && forall i | k < i < |items| :: !items[i].write.SaveJournal?
  }

  lemma RestoreFaithful(d: Disk, j: Journal, h: Host)
    requires j.tx.Some?
    ensures var plan := RestorePlan(d, j, h); plan.end.Finished? ==> Faithful(plan.items, j, plan.mem)
    ensures |RestorePlan(d, j, h).items| <= 3
  {
    hide Health;
    var plan := RestorePlan(d, j, h);
    if plan.items != [] && plan.items[|plan.items| - 1].write.SaveJournal? {
      assert SavesLast(plan.items, plan.mem, |plan.items| - 1) || !plan.end.Finished?;
    }
  }

  lemma BeforeFaithful(first: Item, j: Journal, items: seq<Item>, mem: Journal)
    requires first.write.SaveJournal? && Faithful(items, first.write.state, mem)
    ensures Faithful([first] + items, j, mem)
  {
    var all := [first] + items;
    assert all[0].write.SaveJournal?;
    if forall i | 0 <= i < |items| :: !items[i].write.SaveJournal? {
      assert SavesLast(all, mem, 0);
    } else {
      var k: nat :| SavesLast(items, mem, k);
      assert SavesLast(all, mem, k + 1);
    }
  }

  lemma RollbackFaithful(d: Disk, j: Journal, h: Host)
    requires j.tx.Some?
    ensures var plan := RollbackPlan(d, j, h); plan.end.Finished? ==> Faithful(plan.items, j, plan.mem)
  {
    hide Faithful, RestorePlan;
    RestoreFaithful(d, j, h);
    if h.clock.Some? {
      var intent := Intent(j, h.clock.value.third);
      RestoreFaithful(d, intent, h);
      var rest := RestorePlan(d, intent, h);
      if rest.end.Finished? {
        BeforeFaithful(Save(intent), j, rest.items, rest.mem);
      }
    }
  }

  lemma TrialFaithful(p: Policy, d: Disk, j: Journal, h: Host)
    requires j.tx.Some? && j.phase == Phase.Trial
    ensures var plan := TrialPlan(d, j, h, p); plan.end.Finished? ==> Faithful(plan.items, j, plan.mem)
  {
    hide RollbackPlan, TrialEvidence;
    RollbackFaithful(d, j, h);
    if h.clock.Some? && h.trial.Some? {
      var evidence := TrialEvidence(d.active, j.tx.value, h.trial.value);
      var v := Judge(j.tx.value, evidence, h.clock.value.first, p);
      var judged := Judged(j, v);
      if !v.Keep? {
        assert SavesLast([Save(judged)], judged, 0);
        RollbackFaithful(d, judged, h);
        var rest := RollbackPlan(d, judged, h);
        if rest.end.Finished? {
          BeforeFaithful(Save(judged), j, rest.items, rest.mem);
        }
      } else {
        assert [] + RollbackPlan(d, judged, h).items == RollbackPlan(d, judged, h).items;
      }
    }
  }

  lemma ReconcileFaithful(p: Policy, d: Disk, j: Journal, h: Host)
    ensures var plan := ReconcilePlan(d, j, h, p); plan.end.Finished? ==> Faithful(plan.items, j, plan.mem)
  {
    hide RollbackPlan, TrialPlan, Stopped;
    if j.tx.Some? {
      if j.phase == Phase.Trial {
        TrialFaithful(p, d, j, h);
      } else {
        RollbackFaithful(d, j, h);
      }
      if j.phase in {Phase.Prepared, Phase.Stopping} {
        var plan := ReconcilePlan(d, j, h, p);
        if plan.items != [] && plan.items[0].write.SaveJournal? {
          assert SavesLast(plan.items, plan.mem, 0);
        }
      }
    }
  }

  lemma FaithfulLands(d: Disk, j: Journal, items: seq<Item>, mem: Journal)
    requires Faithful(items, j, mem) && d.journal.phase == j.phase && d.journal.tx == j.tx
    ensures Lands(d, items, mem)
  {
    if forall i | 0 <= i < |items| :: !items[i].write.SaveJournal? {
      NoneSaved(d, items);
    } else {
      var k: nat :| SavesLast(items, mem, k);
      LastSaved(d, items, k);
    }
  }

  // ---- a whole tick ------------------------------------------------------------------------------------------

  /** Nothing is left for the timer to do, or an operator has been called. */
  predicate AtRest(d: Disk) {
    !Open(d.journal.phase) || d.latched
  }

  lemma LatchRests(d: Disk, items: seq<Item>, mem: Journal, e: Error)
    requires Latches(mem, e)
    ensures AtRest(Written(d, items + LatchItems(mem, e)))
  {
    var latch := LatchItems(mem, e);
    var writes := Writes(items + latch);
    assert writes == Writes(items) + [SaveJournal(Latched(mem))] + [RequireRecovery];
    ApplyAllConcat(d, Writes(items) + [SaveJournal(Latched(mem))], [RequireRecovery]);
    var t := ApplyAll(d, Writes(items) + [SaveJournal(Latched(mem))]);
    assert ApplyAll(t, [RequireRecovery]) == ApplyAll(Apply(t, RequireRecovery), []) by {
      assert [RequireRecovery][1..] == [];
    }
  }

  /** No plan of an open transaction fails with a settled journal in memory. */
  lemma FailuresLatch(p: Policy, d: Disk, j: Journal, h: Host)
    requires Open(j.phase)
    ensures var plan := ReconcilePlan(d, j, h, p);
            plan.end.Failed? ==> Latches(plan.mem, plan.end.error)
  {
    hide TrialPlan, RollbackPlan, Stopped;
    if j.tx.Some? {
      RollbackLatches(d, j, h);
      if j.phase == Phase.Trial {
        TrialLatches(p, d, j, h);
      }
    }
  }

  lemma RollbackLatches(d: Disk, j: Journal, h: Host)
    requires j.tx.Some? && Open(j.phase)
    ensures var plan := RollbackPlan(d, j, h); plan.end.Failed? ==> Open(plan.mem.phase)
  {
    hide Health;
  }

  lemma TrialLatches(p: Policy, d: Disk, j: Journal, h: Host)
    requires j.tx.Some? && j.phase == Phase.Trial
    ensures var plan := TrialPlan(d, j, h, p); plan.end.Failed? ==> Open(plan.mem.phase)
  {
    hide TrialEvidence, RollbackPlan;
    RollbackLatches(d, j, h);
    if h.clock.Some? && h.trial.Some? {
      var v := Judge(j.tx.value, TrialEvidence(d.active, j.tx.value, h.trial.value), h.clock.value.first, p);
      if !v.Commit? {
        RollbackLatches(d, Judged(j, v), h);
      }
    }
  }

  lemma TidyLands(d: Disk, items: seq<Item>, mem: Journal)
    requires Lands(d, items, mem)
    ensures Lands(d, items + Tidy(mem), mem)
  {
    if Tidy(mem) == [] {
      assert items + [] == items;
    } else {
      assert Writes(items + Tidy(mem)) == Writes(items) + [RemovePending];
      ApplyAllConcat(d, Writes(items), [RemovePending]);
      var t := ApplyAll(d, Writes(items));
      assert ApplyAll(t, [RemovePending]) == ApplyAll(Apply(t, RemovePending), []) by {
        assert [RemovePending][1..] == [];
      }
    }
  }

  lemma SettledNearer(p: Policy, d: Disk, h: Host, boot: string, now: nat)
    requires Open(d.journal.phase) && Ticks(h, now) && (h.boot.Some? ==> h.boot.value == boot)
    ensures var d' := Written(d, Settled(ReconcilePlan(d, d.journal, h, p)).items);
            AtRest(d') || Nearer(d.journal, now, d'.journal, Later(h, now), boot)
  {
    var j := d.journal;
    var plan := ReconcilePlan(d, j, h, p);
    ReconcileNearer(p, d, j, h, boot, now);
    ReconcileFaithful(p, d, j, h);
    FailuresLatch(p, d, j, h);
    hide ReconcilePlan, Written, AtRest, Faithful, Tidy;
    if plan.end.Failed? {
      LatchRests(d, plan.items, plan.mem, plan.end.error);
    } else {
      FaithfulLands(d, j, plan.items, plan.mem);
      TidyLands(d, plan.items, plan.mem);
    }
  }

  /** A reconcile that runs to its end. */
  predicate Tick(p: Policy, w: World, e: Event) {
    && e.Run? && e.command.Reconcile?
    && Uninterrupted(Dispatch(p, w.state.disk, e.command).items, e.io)
  }

  /** A paused updater stops a reconcile at the door when `active` does not verify. */
  predicate Admitted(p: Policy, e: Event) {
    e.Run? && e.command.Reconcile? && (p.enabled || e.command.host.activeFault.None?)
  }

  /** Such a reconcile writes nothing: it neither goes on with the transaction nor calls an operator. */
  lemma RefusedWritesNothing(p: Policy, d: Disk, c: Command, io: seq<Io>)
    requires c.Reconcile? && !p.enabled && c.host.activeFault.Some? && Loads(p, d)
    ensures Performed(p, d, c, io) == []
  {
    hide Loads;
  }

  lemma TickScript(p: Policy, d: Disk, boot: bool, h: Host)
    requires Loads(p, d) && Open(d.journal.phase) && !d.latched && (p.enabled || h.activeFault.None?)
    ensures var first := BootItems(boot, d.journal);
            Dispatch(p, d, Reconcile(boot, h)).items
            == first + Settled(ReconcilePlan(Written(d, first), d.journal, h, p)).items
  {
    var first := BootItems(boot, d.journal);
    assert first + [] == first;
    hide Loads, Settled, ReconcilePlan, Written, BootItems;
    assert RecoverDownload(d.journal) == d.journal;
  }

  lemma TickNearer(p: Policy, w: World, e: Event, now: nat)
    requires Tick(p, w, e) && EventOk(w, e) && Ticks(e.command.host, now)
    requires Loads(p, w.state.disk) && Open(w.state.disk.journal.phase) && !w.state.disk.latched
    ensures var d' := Next(p, w, e).state.disk;
            if Admitted(p, e)
            then AtRest(d') || Nearer(w.state.disk.journal, now, d'.journal, Later(e.command.host, now), w.env.boot)
            else d' == w.state.disk
  {
    hide Dispatch, Loads, Begin, Next, Settled, ReconcilePlan, AtRest, BootItems, Written, Nearer, EventOk, Ticks, Performed;
    var d := w.state.disk;
    var h := e.command.host;
    if !Admitted(p, e) {
      RefusedWritesNothing(p, d, e.command, e.io);
      NothingDone(p, w, e);
      return;
    }
    var first := BootItems(e.command.boot, d.journal);
    TickDisk(p, w, e);
    TickScript(p, d, e.command.boot, h);
    BootDisk(d, e.command.boot, d.journal);
    var d1 := Written(d, first);
    var rest := Settled(ReconcilePlan(d1, d.journal, h, p)).items;
    WrittenConcat(d, first, rest);
    HostBoot(w, e);
    SettledNearer(p, d1, h, w.env.boot, now);
  }

  lemma NothingDone(p: Policy, w: World, e: Event)
    requires e.Run? && Performed(p, w.state.disk, e.command, e.io) == []
    ensures Next(p, w, e).state.disk == w.state.disk && Next(p, w, e).env == w.env
  {
    BeginFrame(p, w.env, w.state, e.command);
    hide Performed, Begin;
  }

  lemma HostBoot(w: World, e: Event)
    requires e.Run? && e.command.Reconcile? && EventOk(w, e)
    ensures var h := e.command.host; h.boot.Some? ==> h.boot.value == w.env.boot
  {
  }

  /** An uninterrupted tick gets its whole script done. */
  lemma TickDisk(p: Policy, w: World, e: Event)
    requires Tick(p, w, e)
    ensures Next(p, w, e).state.disk == Written(w.state.disk, Dispatch(p, w.state.disk, e.command).items)
  {
    hide Dispatch, Execute, Watch, Noting, Quiet;
    var items := Dispatch(p, w.state.disk, e.command).items;
    UninterruptedWrites(items, e.io);
    Safety.DoAllDisk(Started(p, w, e.command), Writes(items));
    assert Started(p, w, e.command).disk == w.state.disk;
    hide Begin;
  }

  lemma BootDisk(d: Disk, boot: bool, j: Journal)
    ensures Written(d, BootItems(boot, j)) == d.(marks := if boot then {} else d.marks)
  {
    if boot {
      assert Writes(BootItems(boot, j)) == [ClearMarks];
      assert ApplyAll(d, [ClearMarks]) == ApplyAll(Apply(d, ClearMarks), []) by {
        assert [ClearMarks][1..] == [];
      }
    } else {
      assert Writes(BootItems(boot, j)) == [];
    }
  }

  lemma WrittenConcat(d: Disk, a: seq<Item>, b: seq<Item>)
    ensures Written(d, a + b) == Written(Written(d, a), b)
  {
    assert Writes(a + b) == Writes(a) + Writes(b);
    ApplyAllConcat(d, Writes(a), Writes(b));
  }

  // ---- whole schedules ------------------------------------------------------------------------------------------

  /** Commands that would change trust or open a transaction write nothing while one is open. */
  lemma OthersWriteNothing(p: Policy, d: Disk, c: Command, io: seq<Io>)
    requires Loads(p, d) && Open(d.journal.phase) && !c.Reconcile?
    ensures Performed(p, d, c, io) == []
  {
    hide Loads, FetchedPlan, FetchPlan, PreparePlan;
  }

  /** One event, and whether updates are enabled while it happens: the operator may pause or resume at any time. */
  datatype Beat = Beat(event: Event, enabled: bool)

  function Under(p: Policy, b: Beat): Policy {
    p.(enabled := b.enabled)
  }

  predicate Admits(p: Policy, b: Beat) {
    Admitted(Under(p, b), b.event)
  }

  function Step(p: Policy, w: World, b: Beat): World {
    Next(Under(p, b), w, b.event)
  }

  /** An endless sequence of events and the worlds it passes through. */
  function At(p: Policy, w: World, schedule: nat -> Beat, n: nat): World {
    if n == 0 then w else Step(p, At(p, w, schedule, n - 1), schedule(n - 1))
  }

  /** From here on: no reboot, no lifted latch, and no reconcile is cut short or told of a failed write. */
  ghost predicate Calm(p: Policy, w: World, schedule: nat -> Beat) {
    forall n: nat :: CalmBeat(p, At(p, w, schedule, n), schedule(n))
  }

  predicate CalmBeat(p: Policy, w: World, b: Beat) {
    var e := b.event;
    && EventOk(w, e) && !e.Reboot? && !e.Unlatch?
    && (e.Run? && e.command.Reconcile? ==> Tick(Under(p, b), w, e))
  }

  ghost predicate TicksRecur(p: Policy, schedule: nat -> Beat) {
    forall n: nat :: TicksAfter(p, schedule, n)
  }

  ghost predicate TicksAfter(p: Policy, schedule: nat -> Beat, n: nat) {
    exists k: nat :: k >= n && Admits(p, schedule(k))
  }

  /** Later ticks read later clocks. */
  ghost predicate ClockAdvances(p: Policy, schedule: nat -> Beat) {
    && (forall n: nat | Admits(p, schedule(n)) :: Ticks(schedule(n).event.command.host, 0))
    && (forall k: nat, n: nat | k < n && Admits(p, schedule(k)) && Admits(p, schedule(n)) ::
          Ticks(schedule(n).event.command.host, Later(schedule(k).event.command.host, 0)))
  }

  lemma CalmAt(p: Policy, w: World, schedule: nat -> Beat, n: nat)
    requires Calm(p, w, schedule)
    ensures CalmBeat(p, At(p, w, schedule, n), schedule(n))
    ensures At(p, w, schedule, n + 1) == Step(p, At(p, w, schedule, n), schedule(n))
  {
    hide CalmBeat, Step;
  }

  lemma QuietBeat(p: Policy, w: World, b: Beat)
    requires CalmBeat(p, w, b) && !Admits(p, b)
    requires Loads(p, w.state.disk) && Open(w.state.disk.journal.phase)
    ensures var v := Step(p, w, b);
            && v.state.disk == w.state.disk.(marks := v.state.disk.marks) && v.env.boot == w.env.boot
            && Loads(p, v.state.disk)
  {
    var q, e := Under(p, b), b.event;
    var v := Next(q, w, e);
    assert Loads(p, w.state.disk) == Loads(q, w.state.disk);
    assert v.state.disk == w.state.disk.(marks := v.state.disk.marks) ==> Loads(p, v.state.disk);
    if e.Run? {
      if e.command.Reconcile? {
        RefusedWritesNothing(q, w.state.disk, e.command, e.io);
      } else {
        OthersWriteNothing(q, w.state.disk, e.command, e.io);
      }
      NothingDone(q, w, e);
      hide Next, Performed, Loads;
    } else {
      hide Loads;
    }
  }

  /** `k` is the first tick from `n` on. */
  lemma FirstTick(p: Policy, schedule: nat -> Beat, n: nat, bound: nat) returns (k: nat)
    requires bound >= n && Admits(p, schedule(bound))
    ensures n <= k && Admits(p, schedule(k)) && forall i: nat | n <= i < k :: !Admits(p, schedule(i))
    decreases bound - n
  {
    if Admits(p, schedule(n)) {
      k := n;
    } else {
      k := FirstTick(p, schedule, n + 1, bound);
    }
  }

  lemma {:induction false} QuietUntil(p: Policy, w: World, schedule: nat -> Beat, n: nat, k: nat)
    requires Calm(p, w, schedule) && n <= k && forall i: nat | n <= i < k :: !Admits(p, schedule(i))
    requires Loads(p, At(p, w, schedule, n).state.disk) && Open(At(p, w, schedule, n).state.disk.journal.phase)
    ensures var a, b := At(p, w, schedule, n), At(p, w, schedule, k);
            b.state.disk == a.state.disk.(marks := b.state.disk.marks) && b.env.boot == a.env.boot
            && Loads(p, b.state.disk)
    decreases k - n
  {
    hide Step, Calm, CalmBeat, At, Loads;
    if n < k {
      CalmAt(p, w, schedule, n);
      assert !Admits(p, schedule(n));
      QuietBeat(p, At(p, w, schedule, n), schedule(n));
      QuietUntil(p, w, schedule, n + 1, k);
    }
  }

  /** Pausing or resuming updates changes nothing the invariant looks at. */
  lemma InvIgnoresPause(p: Policy, q: Policy, env: Env, s: State)
    requires q == p.(enabled := q.enabled)
    ensures Inv(p, env, s) == Inv(q, env, s) && ValidPolicy(p) == ValidPolicy(q)
  {
    hide BarrierInv, StreakInv, FailedInv, TruthInv, AcceptedInv, Pointer, ObjectsStored, Chain, RootsStored, CacheStored,
         RemoteValid, TransactionValid, ValidDigest, Snapshot, SelfSigned;
  }

  lemma BeatKeeps(p: Policy, w: World, b: Beat)
    requires ValidPolicy(p) && Inv(p, w.env, w.state) && EventOk(w, b.event)
    ensures var v := Step(p, w, b); Inv(p, v.env, v.state)
  {
    hide ValidPolicy, Inv, EventOk, Next;
    InvIgnoresPause(p, Under(p, b), w.env, w.state);
    StepKeeps(Under(p, b), w, b.event);
    var v := Step(p, w, b);
    InvIgnoresPause(p, Under(p, b), v.env, v.state);
  }

  lemma {:induction false} InvAt(p: Policy, w: World, schedule: nat -> Beat, n: nat)
    requires ValidPolicy(p) && Inv(p, w.env, w.state) && Calm(p, w, schedule)
    ensures var v := At(p, w, schedule, n); Inv(p, v.env, v.state)
    decreases n
  {
    hide Inv, Step, Calm, EventOk, Tick, ValidPolicy;
    if n > 0 {
      InvAt(p, w, schedule, n - 1);
      CalmAt(p, w, schedule, n - 1);
      hide At;
      BeatKeeps(p, At(p, w, schedule, n - 1), schedule(n - 1));
    }
  }

  /** An open journal always loads. */
  lemma OpenLoads(p: Policy, w: World)
    requires Inv(p, w.env, w.state) && Open(w.state.disk.journal.phase)
    ensures Loads(p, w.state.disk)
  {
    hide Loads, Inv;
    Guarantees.LoadsIff(p, w.env, w.state);
  }

  /** The last clock any tick before `n` read. */
  ghost predicate Before(p: Policy, schedule: nat -> Beat, n: nat, now: nat) {
    forall i: nat | i >= n && Admits(p, schedule(i)) :: Ticks(schedule(i).event.command.host, now)
  }

  lemma BeforeAdvances(p: Policy, schedule: nat -> Beat, n: nat, now: nat, k: nat)
    requires ClockAdvances(p, schedule) && Before(p, schedule, n, now) && n <= k && Admits(p, schedule(k))
    ensures Before(p, schedule, k + 1, Later(schedule(k).event.command.host, now))
  {
    var later := Later(schedule(k).event.command.host, now);
    forall i: nat | i >= k + 1 && Admits(p, schedule(i)) ensures Ticks(schedule(i).event.command.host, later) {
      assert Ticks(schedule(i).event.command.host, Later(schedule(k).event.command.host, 0));
      assert Ticks(schedule(i).event.command.host, now);
    }
  }

  lemma {:induction false} Settles(p: Policy, w: World, schedule: nat -> Beat, n: nat, now: nat) returns (m: nat)
    requires ValidPolicy(p) && Inv(p, w.env, w.state) && Calm(p, w, schedule) && TicksRecur(p, schedule)
    requires ClockAdvances(p, schedule) && Before(p, schedule, n, now)
    ensures AtRest(At(p, w, schedule, m).state.disk)
    decreases Stage(At(p, w, schedule, n).state.disk.journal.phase),
              Unasked(At(p, w, schedule, n).state.disk.journal, At(p, w, schedule, n).env.boot),
              Left(At(p, w, schedule, n).state.disk.journal, now)
  {
    hide Inv, Calm, TicksRecur, ClockAdvances, Before, Loads, Step, ValidPolicy, Tick, EventOk, CalmBeat, At;
    var a := At(p, w, schedule, n);
    if AtRest(a.state.disk) {
      m := n;
    } else {
      var k, later := TickFrom(p, w, schedule, n, now);
      if AtRest(At(p, w, schedule, k + 1).state.disk) {
        m := k + 1;
      } else {
        m := Settles(p, w, schedule, k + 1, later);
      }
    }
  }

  /** The next tick, and how far it gets. */
  lemma TickFrom(p: Policy, w: World, schedule: nat -> Beat, n: nat, now: nat) returns (k: nat, later: nat)
    requires ValidPolicy(p) && Inv(p, w.env, w.state) && Calm(p, w, schedule) && TicksRecur(p, schedule)
    requires ClockAdvances(p, schedule) && Before(p, schedule, n, now) && !AtRest(At(p, w, schedule, n).state.disk)
    ensures Before(p, schedule, k + 1, later)
    ensures var a, c := At(p, w, schedule, n), At(p, w, schedule, k + 1);
            && c.env.boot == a.env.boot
            && (AtRest(c.state.disk)
                || Nearer(a.state.disk.journal, now, c.state.disk.journal, later, a.env.boot))
  {
    k := NextTick(p, schedule, n, now);
    var b := At(p, w, schedule, k);
    var q, e := Under(p, schedule(k)), schedule(k).event;
    later := Later(e.command.host, now);
    BeforeAdvances(p, schedule, n, now, k);
    hide Calm, TicksRecur, ClockAdvances, Before, At, Inv, ValidPolicy, Loads, Next, Nearer, Left, Unasked;
    InvAt(p, w, schedule, n);
    OpenLoads(p, At(p, w, schedule, n));
    QuietUntil(p, w, schedule, n, k);
    CalmAt(p, w, schedule, k);
    hide Tick, EventOk;
    InvAt(p, w, schedule, k);
    InvIgnoresPause(p, q, b.env, b.state);
    OpenLoads(q, b);
    TickNearer(q, b, e, now);
    assert Next(q, b, e).env.boot == b.env.boot by {
      RunKeepsBoot(q, b, e);
    }
  }

  lemma RunKeepsBoot(p: Policy, w: World, e: Event)
    requires e.Run?
    ensures Next(p, w, e).env == w.env
  {
    hide Performed, Begin;
  }

  lemma NextTick(p: Policy, schedule: nat -> Beat, n: nat, now: nat) returns (k: nat)
    requires TicksRecur(p, schedule) && Before(p, schedule, n, now)
    ensures n <= k && Admits(p, schedule(k)) && (forall i: nat | n <= i < k :: !Admits(p, schedule(i)))
    ensures Ticks(schedule(k).event.command.host, now)
  {
    assert TicksAfter(p, schedule, n);
    var bound: nat :| bound >= n && Admits(p, schedule(bound));
    k := FirstTick(p, schedule, n, bound);
  }

  lemma CalmSettles(p: Policy, w: World, schedule: nat -> Beat)
    requires ValidPolicy(p) && Inv(p, w.env, w.state)
    requires Calm(p, w, schedule) && TicksRecur(p, schedule) && ClockAdvances(p, schedule)
    ensures exists n: nat :: Rests(p, w, schedule, n)
  {
    assert Before(p, schedule, 0, 0);
    var n := Settles(p, w, schedule, 0, 0);
    assert Rests(p, w, schedule, n);
  }

  // ---- exactly when it settles --------------------------------------------------------------------------------

  predicate Rests(p: Policy, w: World, schedule: nat -> Beat, n: nat) {
    AtRest(At(p, w, schedule, n).state.disk)
  }

  /** Still open after `n` events, and no tick after them is even admitted. */
  ghost predicate StuckFrom(p: Policy, w: World, schedule: nat -> Beat, n: nat) {
    && (forall k: nat | k <= n :: !Rests(p, w, schedule, k))
    && (forall k: nat | k >= n :: !Admits(p, schedule(k)))
  }

  lemma StuckNeverRests(p: Policy, w: World, schedule: nat -> Beat, n: nat, m: nat)
    requires ValidPolicy(p) && Inv(p, w.env, w.state) && Calm(p, w, schedule) && StuckFrom(p, w, schedule, n)
    ensures !Rests(p, w, schedule, m)
  {
    if m > n {
      assert !Rests(p, w, schedule, n);
      hide Inv, ValidPolicy, Calm, Loads, At;
      InvAt(p, w, schedule, n);
      OpenLoads(p, At(p, w, schedule, n));
      QuietUntil(p, w, schedule, n, m);
    }
  }

  lemma RecursOrStuck(p: Policy, w: World, schedule: nat -> Beat)
    requires forall n: nat :: !Rests(p, w, schedule, n)
    requires forall n: nat :: !StuckFrom(p, w, schedule, n)
    ensures TicksRecur(p, schedule)
  {
    hide Rests, Admits;
    forall n: nat ensures TicksAfter(p, schedule, n) {
      assert !StuckFrom(p, w, schedule, n);
      var k: nat :| k >= n && Admits(p, schedule(k));
    }
  }

  lemma SettlesIff(p: Policy, w: World, schedule: nat -> Beat)
    requires ValidPolicy(p) && Inv(p, w.env, w.state) && Calm(p, w, schedule) && ClockAdvances(p, schedule)
    ensures (exists n: nat :: Rests(p, w, schedule, n)) <==> !(exists n: nat :: StuckFrom(p, w, schedule, n))
  {
    hide Inv, ValidPolicy, Calm, ClockAdvances, Rests, StuckFrom, TicksRecur;
    if n: nat :| StuckFrom(p, w, schedule, n) {
      forall m: nat ensures !Rests(p, w, schedule, m) {
        StuckNeverRests(p, w, schedule, n, m);
      }
    } else if forall n: nat :: !Rests(p, w, schedule, n) {
      RecursOrStuck(p, w, schedule);
      CalmSettles(p, w, schedule);
    }
  }

  // ---- runs that become calm ------------------------------------------------------------------------------------

  /** What is left of a schedule. */
  function From(schedule: nat -> Beat, start: nat): nat -> Beat {
    (n: nat) => schedule(start + n)
  }

  /** The host answers truthfully up to here. */
  ghost predicate Honest(p: Policy, w: World, schedule: nat -> Beat, n: nat) {
    forall i: nat | i < n :: EventOk(At(p, w, schedule, i), schedule(i).event)
  }

  lemma {:induction false} InvBefore(p: Policy, w: World, schedule: nat -> Beat, n: nat)
    requires ValidPolicy(p) && Inv(p, w.env, w.state) && Honest(p, w, schedule, n)
    ensures var v := At(p, w, schedule, n); Inv(p, v.env, v.state)
    decreases n
  {
    hide ValidPolicy, Inv, Step, EventOk;
    if n > 0 {
      InvBefore(p, w, schedule, n - 1);
      HonestAt(p, w, schedule, n);
      hide At, Honest;
      BeatKeeps(p, At(p, w, schedule, n - 1), schedule(n - 1));
    }
  }

  lemma HonestAt(p: Policy, w: World, schedule: nat -> Beat, n: nat)
    requires n > 0 && Honest(p, w, schedule, n)
    ensures EventOk(At(p, w, schedule, n - 1), schedule(n - 1).event)
    ensures At(p, w, schedule, n) == Step(p, At(p, w, schedule, n - 1), schedule(n - 1))
  {
    hide EventOk, Step;
  }

  /**
   * In any run with finitely many reboots, power cuts and failed writes, in which the operator may pause and
   * resume updates at any time: after the last of them an open transaction ends, or an operator is called,
   * whatever the host answers, unless no tick is admitted any more: the timer has stopped, or every later
   * tick finds updates paused and an `active` that does not verify. In that case it never does.
   */
  lemma OpenTransactionsSettle(p: Policy, w: World, schedule: nat -> Beat, start: nat)
    requires ValidPolicy(p) && Reachable(p, w) && Honest(p, w, schedule, start)
    requires var calm, v := From(schedule, start), At(p, w, schedule, start);
             Calm(p, v, calm) && ClockAdvances(p, calm)
    ensures var calm, v := From(schedule, start), At(p, w, schedule, start);
            (exists n: nat :: Rests(p, v, calm, n)) <==> !(exists n: nat :: StuckFrom(p, v, calm, n))
  {
    hide Reachable, ValidPolicy, Calm, ClockAdvances, Rests, Inv, Honest, At, StuckFrom;
    ReachableInv(p, w);
    InvBefore(p, w, schedule, start);
    SettlesIff(p, At(p, w, schedule, start), From(schedule, start));
  }
}
