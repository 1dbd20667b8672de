/**
 * The reachable worlds are not vacuous: under every enabled policy each newer release can be committed,
 * rolled back from its trial, and latched after its commit.
 */
module Witnesses {
  import opened Options
  import opened AgentUpdate
  import opened LocalPolicy
  import opened Trust
  import opened Journals
  import opened Disks
  import opened Hosts
  import opened Activate
  import opened Download
  import opened Runtime
  import opened Worlds
  import opened Safety
  import opened Fetches
  import opened Collects
  import opened Commands
  import opened Runs
  import Guarantees
  import Liveness
  import LatchedCommits
  import Saves

  const BOOT := "boot"

  function Invocation(): string {
    seq(32, i => 'a')
  }

  // ---- what the host answers --------------------------------------------------------------------------------

  /** A unit as systemd shows it, without a process. */
  function Unit(state: string, exit: string): Props {
    Props(state, if exit == "0" then "" else "success", exit, "", "0", "")
  }

  /** A quiet host at time `now`, its two bridge units as given. */
  function Answers(now: nat, preflight: Props, stop: Props): Host {
    Host(Some(BOOT), Some(Clock(now, now, now, now)), Some(Unit("inactive", "")), Some(preflight), Some(stop),
         NoCgroup, None, None, None)
  }

  /** The agent of `digest`, running and well at `now`. */
  function Healthy(digest: Digest, now: nat): Sight {
    Sight(Props("active", "", "", Invocation(), "7", ""), Some(Evidence(1, "7", Invocation(), digest, now, now, 1)), now, now)
  }

  lemma HealthyCounts(digest: Digest, now: nat)
    requires ValidDigest(digest) && now > 0
    ensures Health(digest, Healthy(digest, now), digest) == Healthy(digest, now).file
  {
  }

  // ---- single steps ------------------------------------------------------------------------------------------

  /** A reachable world in boot `BOOT` whose units last exited at `preflight` and `stop`, successfully unless never run. */
  ghost predicate At(p: Policy, w: World, preflight: string, stop: string) {
    && ValidPolicy(p) && p.enabled && Reachable(p, w) && w.env.boot == BOOT && !w.state.disk.latched
    && PreflightUnit in w.env.units && w.env.units[PreflightUnit] == UnitState(preflight, preflight != "0")
    && StopUnit in w.env.units && w.env.units[StopUnit] == UnitState(stop, stop != "0")
  }

  lemma WrittenCons(d: Disk, item: Item, rest: seq<Item>)
    ensures Written(d, [item] + rest) == Written(Apply(d, item.write), rest)
  {
    hide Apply;
    assert Writes([item] + rest) == [item.write] + Writes(rest);
    assert ([item.write] + Writes(rest))[1..] == Writes(rest);
  }

  lemma WrittenThree(d: Disk, a: Item, b: Item, c: Item)
    ensures Written(d, []) == d
    ensures Written(d, [a]) == Apply(d, a.write)
    ensures Written(d, [a, b]) == Apply(Apply(d, a.write), b.write)
    ensures Written(d, [a, b, c]) == Apply(Apply(Apply(d, a.write), b.write), c.write)
  {
    hide Apply;
    assert Writes([]) == [];
    assert [c] == [c] + [] && [b, c] == [b] + [c] && [a, b, c] == [a] + [b, c] && [a, b] == [a] + [b] && [a] == [a] + [] && [b] == [b] + [];
    WrittenCons(d, a, []);
    WrittenCons(d, a, [b]);
    WrittenCons(d, a, [b, c]);
    WrittenCons(Apply(d, a.write), b, []);
    WrittenCons(Apply(d, a.write), b, [c]);
    WrittenCons(Apply(Apply(d, a.write), b.write), c, []);
  }

  /** A command all of whose writes get done. */
  lemma Performing(p: Policy, w: World, c: Command) returns (v: World)
    requires Reachable(p, w) && CommandOk(w.env, c) && !c.Remote?
    ensures Reachable(p, v) && v.env == w.env
    ensures v.state.disk == Written(w.state.disk, Dispatch(p, w.state.disk, c).items)
  {
    hide Reachable, CommandOk, Dispatch, Begin, Execute;
    var items := Dispatch(p, w.state.disk, c).items;
    var io := seq(|items|, i => Io.Done);
    v := Next(p, w, Run(c, io));
    ReachableStep(p, w, Run(c, io));
    UninterruptedWrites(items, io);
    LatchedCommits.NextDisk(p, w, c, io);
  }

  /** A reconcile tick inside an open transaction. */
  lemma Ticking(p: Policy, w: World, h: Host) returns (v: World)
    requires ValidPolicy(p) && p.enabled && Reachable(p, w) && !w.state.disk.latched
    requires Open(w.state.disk.journal.phase) && HostOk(w.env, h) && h.activeFault.None?
    ensures Reachable(p, v) && v.env == w.env
    ensures v.state.disk == Written(w.state.disk, Settled(ReconcilePlan(w.state.disk, w.state.disk.journal, h, p)).items)
  {
    hide Reachable, ValidPolicy, Settled, ReconcilePlan, Loads, Dispatch, HostOk, Written, Inv;
    v := Performing(p, w, Reconcile(false, h));
    ReachableInv(p, w);
    Liveness.OpenLoads(p, w);
    Liveness.TickScript(p, w.state.disk, false, h);
    var rest := Settled(ReconcilePlan(w.state.disk, w.state.disk.journal, h, p)).items;
    var save := Save(w.state.disk.journal);
    WrittenThree(w.state.disk, save, save, save);
    assert [] + rest == rest;
  }

  lemma Completed(p: Policy, w: World, unit: UnitName, preflight: string, stop: string) returns (v: World)
    requires At(p, w, preflight, stop)
    ensures At(p, v, if unit.PreflightUnit? then "1" else preflight, if unit.StopUnit? then "1" else stop)
    ensures v.state == w.state
  {
    hide Reachable, ValidPolicy;
    v := Next(p, w, Complete(unit, "1", true));
    ReachableStep(p, w, Complete(unit, "1", true));
  }

  lemma Consumed(p: Policy, w: World, mark: Mark, preflight: string, stop: string) returns (v: World)
    requires At(p, w, preflight, stop)
    ensures At(p, v, preflight, stop)
    ensures v.state.disk == w.state.disk.(marks := w.state.disk.marks - {mark})
  {
    hide Reachable, ValidPolicy;
    v := Next(p, w, Consume(mark));
    ReachableStep(p, w, Consume(mark));
  }

  // ---- fetching ------------------------------------------------------------------------------------------------

  /** A release with no root rotation, offered to an enrolled host. */
  function Fetching(p: Policy, to: Artifact): Fetch {
    Fetch(1, 1, "s", Filing(true, map[]), [], "f", "g", "a",
          Loaded(Some(Offer(Release("nodelite", "agent", p.channel, p.target, to.sequence, p.baseline.sequence, "1"), to.digest, 1, true))),
          true)
  }

  /** A valid artifact newer than the baseline. */
  predicate Released(p: Policy, to: Artifact) {
    ValidArtifact(to) && to.sequence > p.baseline.sequence
  }

  lemma OpeningFiles(p: Policy, j: Journal, to: Artifact)
    requires j.cache.None?
    ensures Opening(p, j, Fetching(p, to))
         == Load(p.bootstrap, Client(p.bootstrap, map[RootJson := RootDoc(p.bootstrap)]), [], false, false, "f")
  {
    var none: Inventory := map[];
    assert none - {RootJson} == map[];
  }

  /** The journal of memory once the bootstrap root is recorded. */
  function Rooted(p: Policy): Journal {
    Enrolled(p, 1).(roots := map[p.bootstrap.version := p.bootstrap])
  }

  lemma LoadFinishes(p: Policy, d: Disk, to: Artifact)
    requires ValidPolicy(p)
    ensures var loading := LoadPlan(d, Enrolled(p, 1), Opening(p, Enrolled(p, 1), Fetching(p, to)));
            && loading.plan.end.Finished? && loading.plan.mem == Rooted(p)
            && loading.files == map[RootJson := RootDoc(p.bootstrap)]
            && Written(d, loading.plan.items).generations == d.generations
  {
    var j := Enrolled(p, 1);
    OpeningFiles(p, j, to);
    hide Authorises;
    assert Predecessor(j.roots, p.bootstrap, p.bootstrap.version) == p.bootstrap;
    assert Continues(j.roots, p.bootstrap, p.bootstrap);
    hide Continues, SelfSigned;
    var put, save := Leave(PutRoot(p.bootstrap), j), Leave(SaveJournal(Rooted(p)), Rooted(p));
    assert j.roots[p.bootstrap.version := p.bootstrap] == Rooted(p).roots;
    WrittenThree(d, put, save, save);
    hide Written;
    var captured := CapturePlan(j, p.bootstrap, map[RootJson := RootDoc(p.bootstrap)]);
    assert captured == Plan([put, save], Rooted(p), Finished);
    assert captured.items + [] == captured.items;
  }

  lemma ReleaseFinishes(p: Policy, d: Disk, to: Artifact)
    requires ValidPolicy(p) && Released(p, to) && |d.generations| < GENERATION_QUOTA && "g" !in d.generations
    ensures var plan := ReleasePlan(p, d, Rooted(p), Fetching(p, to), map[RootJson := RootDoc(p.bootstrap)]);
            plan.end.Finished? && Candidate(plan.mem) == to && plan.mem.cache.Some? && plan.mem.timeHigh == 1
  {
    var files: Inventory := map[RootJson := RootDoc(p.bootstrap)];
    var f := Fetching(p, to);
    hide ValidDigest, SelfSigned, Written;
    var published := PublishPlan(d, Rooted(p), files, f.published);
    assert published.mem == Rooted(p).(cache := Some("g"), inventory := files);
    assert ValidVersion("1");
    assert AcceptRelease(p, published.mem, f.repository.offer.value, 1).Ok?;
  }

  lemma StageFinishes(p: Policy, d: Disk)
    requires d.generations == map[] && d.journal == Enrolled(p, 1)
    ensures var staged := StagePlan(d, d.journal, "s");
            staged.end.Finished? && Written(d, staged.items).generations.Keys == {"s"}
  {
    var j := d.journal;
    var make, fill := Leave(MakeGeneration("s"), j), Leave(FillGeneration("s", Staged(j)), j);
    hide Written;
    WrittenThree(d, make, fill, fill);
  }

  lemma DownloadFinishes(p: Policy, d: Disk, to: Artifact)
    requires ValidPolicy(p) && Released(p, to) && d.generations.Keys == {"s"}
    ensures var plan := DownloadPlan(p, d, Enrolled(p, 1), Fetching(p, to));
            plan.end.Finished? && Candidate(plan.mem) == to && plan.mem.cache.Some? && plan.mem.timeHigh == 1
  {
    LoadFinishes(p, d, to);
    hide LoadPlan, Opening, Written, ReleasePlan, ValidPolicy, Released, Fetching;
    var loading := LoadPlan(d, Enrolled(p, 1), Opening(p, Enrolled(p, 1), Fetching(p, to)));
    var d2 := Written(d, loading.plan.items);
    assert |d2.generations| == |d2.generations.Keys|;
    ReleaseFinishes(p, d2, to);
  }

  lemma FetchFinishes(p: Policy, d: Disk, to: Artifact)
    requires ValidPolicy(p) && Released(p, to) && d.generations == map[] && d.journal == Enrolled(p, 1)
    ensures var plan := FetchedPlan(p, d, d.journal, Sweep([], []), Fetching(p, to));
            plan.end.Finished? && Candidate(plan.mem) == to && plan.mem.cache.Some? && plan.mem.timeHigh == 1
  {
    hide ValidPolicy, Released, Written, DownloadPlan, StagePlan;
    var j := d.journal;
    assert CollectPlan(j, Sweep([], [])) == Pass(j);
    assert Written(d, []) == d by {
      WrittenThree(d, Save(j), Save(j), Save(j));
    }
    StageFinishes(p, d);
    DownloadFinishes(p, Written(d, StagePlan(d, j, "s").items), to);
  }

  // ---- the transaction -----------------------------------------------------------------------------------------------

  /** The transaction as `prepare` opened it, with its current deadline and sampled exit. */
  function Deal(p: Policy, to: Artifact, deadline: nat): Transaction {
    Transaction(p.baseline, to, BOOT, deadline, "", "0", false, false, None, None, None)
  }

  /** A disk inside the transaction, without a remote request. */
  predicate Inside(p: Policy, d: Disk, phase: Phase, tx: Transaction) {
    && d.journal.phase == phase && d.journal.tx == Some(tx) && d.journal.installed == p.baseline
    && d.journal.remote.None? && d.journal.hardFloor <= p.baseline.sequence && !d.latched
  }

  /** Nothing has failed yet, and what is seen is `to`. */
  predicate Offers(d: Disk, to: Artifact) {
    d.journal.failed == [] && Candidate(d.journal) == to && d.journal.cache.Some? && d.journal.timeHigh == 1
  }

  lemma Enrolling(p: Policy) returns (w: World)
    requires ValidPolicy(p) && p.enabled
    ensures At(p, w, "0", "0") && w.state.disk == EnrolledDisk(p, 1) && w.state.hist.note.None?
  {
    w := EnrolledWorld(p, 1, BOOT);
    assert AllOk(p, w, []) && StepAll(p, w, []) == w;
    assert Leads(p, 1, BOOT, [], w);
  }

  /** What the fetch leaves for `prepare`. */
  lemma FetchedWith(p: Policy, w: World, to: Artifact)
    requires At(p, w, "0", "0") && w.state.disk == EnrolledDisk(p, 1) && w.state.hist.note.None? && Released(p, to)
    ensures var d := w.state.disk; var plan := FetchedPlan(p, d, d.journal, Sweep([], []), Fetching(p, to));
            var m, d1 := plan.mem, Written(d, plan.items);
            && plan.end.Finished? && Candidate(m) == to && m.cache.Some? && m.timeHigh == 1 && Loads(p, d)
            && m.phase == Phase.Stable && m.installed == p.baseline && m.failed == [] && m.remote.None?
            && m.hardFloor <= p.baseline.sequence
            && d1.active == p.baseline.digest && !d1.latched && d1.journal == m
  {
    var s := w.state;
    FetchFinishes(p, s.disk, to);
    ReachableInv(p, w);
    Guarantees.LoadsUnlessDead(p, w);
    hide Reachable, Inv, ValidPolicy, FetchedPlan, Loads, Validate, Holding, Safe, Fetching;
    assert !Dead(s.disk.journal);
    LoadedHolds(p, w.env, s);
    FetchedPlanSafe(p, w.env, s, s.disk.journal, Sweep([], []), Fetching(p, to));
    FetchedParts(p, w.env, s, FetchedPlan(p, s.disk, s.disk.journal, Sweep([], []), Fetching(p, to)));
  }

  lemma FetchedParts(p: Policy, env: Env, s: State, plan: Plan)
    requires ValidPolicy(p) && Downloaded(p, env, s, s.disk.journal, plan) && s.disk.journal == Enrolled(p, 1)
    ensures var j, m, d1 := s.disk.journal, plan.mem, Written(s.disk, plan.items);
            && m.phase == j.phase && m.installed == j.installed && m.failed == j.failed && m.remote == j.remote
            && m.hardFloor <= m.installed.sequence
            && d1.active == s.disk.active && d1.latched == s.disk.latched && d1.journal == m
  {
    AfterDisk(s, plan.items);
    hide Inv, ValidPolicy, After, Forward;
  }

  /** What `prepare` writes on a quiet host that has never run its bridge units. */
  lemma Prepares(p: Policy, d: Disk, m: Journal, h: Host, to: Artifact)
    requires ValidPolicy(p) && Released(p, to) && Candidate(m) == to && h == Answers(0, Unit("", "0"), Unit("", "0"))
    requires m.phase == Phase.Stable && m.installed == p.baseline && m.failed == [] && m.remote.None? && m.cache.Some? && m.timeHigh == 1
    requires m.hardFloor <= p.baseline.sequence && d.active == p.baseline.digest && !d.latched
    ensures var d' := Written(d, Commands.Following(p, d, m, h));
            Inside(p, d', Phase.Prepared, Deal(p, to, BRIDGE_TIMEOUT_MS)) && Offers(d', to)
  {
    var prepared := Opened(m, h, to);
    var a, b, c, e := Step(PointCandidate(to.digest), m), Step(CreatePending, m), Save(prepared), Step(PutMark(PreflightMark), prepared);
    assert Commands.Following(p, d, m, h) == [a] + [b, c, e];
    WrittenCons(d, a, [b, c, e]);
    WrittenThree(Apply(d, a.write), b, c, e);
  }

  lemma DispatchedUpgrade(p: Policy, d: Disk, c: Command)
    requires p.enabled && Loads(p, d) && c.Upgrade?
    ensures Dispatch(p, d, c) == UpgradeScript(p, d, c.sweep, c.fetch, c.host)
  {
    hide Loads, UpgradeScript;
  }

  function Upgrading(p: Policy, to: Artifact): Command {
    Upgrade(Sweep([], []), Fetching(p, to), Answers(0, Unit("", "0"), Unit("", "0")))
  }

  lemma PreparedDisk(p: Policy, w: World, to: Artifact)
    requires At(p, w, "0", "0") && w.state.disk == EnrolledDisk(p, 1) && w.state.hist.note.None? && Released(p, to)
    ensures var d' := Written(w.state.disk, Dispatch(p, w.state.disk, Upgrading(p, to)).items);
            Inside(p, d', Phase.Prepared, Deal(p, to, BRIDGE_TIMEOUT_MS)) && Offers(d', to)
  {
    FetchedWith(p, w, to);
    var d, c := w.state.disk, Upgrading(p, to);
    assert Terminal(d.journal.phase) && ValidPolicy(p) && p.enabled && !d.latched;
    hide At, ValidPolicy, Released, FetchedPlan, Loads, Dispatch, Fetching, Written, UpgradeScript, Commands.Following, Inside, Deal, Offers;
    DispatchedUpgrade(p, d, c);
    UpgradeItems(p, d, c.sweep, c.fetch, c.host);
    var fetched := FetchedPlan(p, d, d.journal, c.sweep, c.fetch);
    var d1 := Written(d, fetched.items);
    Liveness.WrittenConcat(d, fetched.items, Commands.Following(p, d1, fetched.mem, c.host));
    Prepares(p, d1, fetched.mem, c.host, to);
  }

  /** Prepared: the release is fetched and its transaction open. */
  lemma Preparing(p: Policy, to: Artifact) returns (v: World)
    requires ValidPolicy(p) && p.enabled && Released(p, to)
    ensures At(p, v, "0", "0") && Inside(p, v.state.disk, Phase.Prepared, Deal(p, to, BRIDGE_TIMEOUT_MS))
    ensures Offers(v.state.disk, to)
  {
    var w := Enrolling(p);
    PreparedDisk(p, w, to);
    assert CommandOk(w.env, Upgrading(p, to));
    hide Reachable, ValidPolicy, Released, Dispatch, Written, Inside, Deal, CommandOk, Upgrading, Offers;
    v := Performing(p, w, Upgrading(p, to));
    InsideUnlatched(p, v.state.disk, Phase.Prepared, Deal(p, to, BRIDGE_TIMEOUT_MS));
  }

  lemma InsideUnlatched(p: Policy, d: Disk, phase: Phase, tx: Transaction)
    requires Inside(p, d, phase, tx)
    ensures !d.latched && d.journal.phase == phase
  {
  }

  /** Stopping: the preflight has passed. */
  lemma Stopping(p: Policy, to: Artifact) returns (v: World)
    requires ValidPolicy(p) && p.enabled && Released(p, to)
    ensures At(p, v, "1", "0") && Inside(p, v.state.disk, Phase.Stopping, Deal(p, to, 1 + BRIDGE_TIMEOUT_MS))
  {
    var w := Preparing(p, to);
    w := Completed(p, w, PreflightUnit, "0", "0");
    Guarantees.PointerConsistent(p, w);
    var h := Answers(1, Unit("active", "1"), Unit("", "0"));
    hide Reachable, ValidPolicy;
    v := Ticking(p, w, h);
    StopAsked(p, w.state.disk, h, to);
  }

  lemma StopAsked(p: Policy, d: Disk, h: Host, to: Artifact)
    requires Inside(p, d, Phase.Prepared, Deal(p, to, BRIDGE_TIMEOUT_MS)) && d.active == p.baseline.digest
    requires h == Answers(1, Unit("active", "1"), Unit("", "0"))
    ensures Inside(p, Written(d, Settled(ReconcilePlan(d, d.journal, h, p)).items), Phase.Stopping, Deal(p, to, 1 + BRIDGE_TIMEOUT_MS))
  {
    var j := d.journal;
    var stopping := j.(phase := Phase.Stopping, tx := Some(Deal(p, to, 1 + BRIDGE_TIMEOUT_MS)));
    var a, b := Save(stopping), Step(PutMark(StopMark), stopping);
    assert ReconcilePlan(d, j, h, p) == Plan([a, b], stopping, Finished);
    assert Settled(ReconcilePlan(d, j, h, p)).items == [a, b];
    WrittenThree(d, a, b, b);
  }

  /** On trial: the old service has stopped and `active` points at the release. */
  lemma Trying(p: Policy, to: Artifact) returns (v: World)
    requires ValidPolicy(p) && p.enabled && Released(p, to)
    ensures At(p, v, "1", "1") && v.state.disk.active == to.digest
    ensures Inside(p, v.state.disk, Phase.Trial, Deal(p, to, 2 + p.trialSeconds * 1000))
  {
    var w := Stopping(p, to);
    w := Completed(p, w, StopUnit, "1", "0");
    w := Consumed(p, w, StopMark, "1", "1");
    Guarantees.PointerConsistent(p, w);
    var h := Answers(2, Unit("active", "1"), Unit("inactive", "1"));
    hide Reachable, ValidPolicy;
    v := Ticking(p, w, h);
    TrialBegun(p, w.state.disk, h, to);
  }

  lemma TrialBegun(p: Policy, d: Disk, h: Host, to: Artifact)
    requires Inside(p, d, Phase.Stopping, Deal(p, to, 1 + BRIDGE_TIMEOUT_MS)) && d.active == p.baseline.digest && StopMark !in d.marks
    requires h == Answers(2, Unit("active", "1"), Unit("inactive", "1"))
    ensures var d' := Written(d, Settled(ReconcilePlan(d, d.journal, h, p)).items);
            Inside(p, d', Phase.Trial, Deal(p, to, 2 + p.trialSeconds * 1000)) && d'.active == to.digest
  {
    var j := d.journal;
    var trial := j.(phase := Phase.Trial, tx := Some(Deal(p, to, 2 + p.trialSeconds * 1000)));
    var a, b, c := Save(trial), Step(PointActive(to.digest), trial), Step(PutMark(RestartMark), trial);
    assert ReconcilePlan(d, j, h, p) == Plan([a, b, c], trial, Finished);
    assert Settled(ReconcilePlan(d, j, h, p)).items == [a, b, c];
    WrittenThree(d, a, b, c);
  }

  // ---- committed, and latched after that ----------------------------------------------------------------------------------

  function Watched(p: Policy, to: Artifact): Transaction {
    Deal(p, to, 2 + p.trialSeconds * 1000).(
      stableInvocation := Some(Invocation()), stableSince := Some(3), stableSample := Some(3))
  }

  lemma StreakBegun(p: Policy, d: Disk, h: Host, to: Artifact)
    requires ValidPolicy(p) && ValidDigest(to.digest) && d.active == to.digest
    requires Inside(p, d, Phase.Trial, Deal(p, to, 2 + p.trialSeconds * 1000))
    requires h == Answers(3, Unit("active", "1"), Unit("inactive", "1")).(trial := Some(Healthy(to.digest, 3)))
    ensures var d' := Written(d, Settled(ReconcilePlan(d, d.journal, h, p)).items);
            Inside(p, d', Phase.Trial, Watched(p, to)) && d'.active == to.digest
  {
    HealthyCounts(to.digest, 3);
    hide Health, ValidDigest;
    var j := d.journal;
    var judged := j.(tx := Some(Watched(p, to)));
    assert ReconcilePlan(d, j, h, p) == Plan([Save(judged)], judged, Finished);
    assert Settled(ReconcilePlan(d, j, h, p)).items == [Save(judged)];
    WrittenThree(d, Save(judged), Save(judged), Save(judged));
  }

  lemma StreakEnds(p: Policy, d: Disk, h: Host, to: Artifact, now: nat)
    requires ValidPolicy(p) && ValidDigest(to.digest) && d.active == to.digest && now == 3 + p.stabilitySeconds * 1000
    requires Inside(p, d, Phase.Trial, Watched(p, to))
    requires h == Answers(now, Unit("active", "1"), Unit("inactive", "1")).(trial := Some(Healthy(to.digest, now)))
    ensures var d' := Written(d, Settled(ReconcilePlan(d, d.journal, h, p)).items);
            d'.journal.phase == Phase.Committed && d'.journal.installed == to && !d'.latched
  {
    HealthyCounts(to.digest, now);
    hide Health, ValidDigest;
    var j := d.journal;
    var committed := j.(installed := to, phase := Phase.Committed);
    assert ReconcilePlan(d, j, h, p) == Plan([Save(committed)], committed, Finished);
    var a, b := Save(committed), Leave(RemovePending, committed);
    assert Settled(ReconcilePlan(d, j, h, p)).items == [a, b];
    WrittenThree(d, a, b, b);
  }

  /** Every newer release can be committed. */
  lemma Committing(p: Policy, to: Artifact) returns (v: World)
    requires ValidPolicy(p) && p.enabled && Released(p, to)
    ensures At(p, v, "1", "1") && v.state.disk.journal.phase == Phase.Committed && v.state.disk.journal.installed == to
  {
    var w := Trying(p, to);
    var h := Answers(3, Unit("active", "1"), Unit("inactive", "1")).(trial := Some(Healthy(to.digest, 3)));
    var now := 3 + p.stabilitySeconds * 1000;
    var last := Answers(now, Unit("active", "1"), Unit("inactive", "1")).(trial := Some(Healthy(to.digest, now)));
    assert ValidDigest(to.digest);
    hide Reachable, ValidDigest;
    v := Ticking(p, w, h);
    StreakBegun(p, w.state.disk, h, to);
    w := v;
    v := Ticking(p, w, last);
    StreakEnds(p, w.state.disk, last, to, now);
  }

  /** What happens to an enabled host with a committed release whose `active` object does not verify. */
  lemma Spoiling(p: Policy, w: World, preflight: string, stop: string) returns (v: World)
    requires At(p, w, preflight, stop) && w.state.disk.journal.phase == Phase.Committed && Loads(p, w.state.disk)
    ensures Reachable(p, v) && !Loads(p, v.state.disk)
  {
    var h := Host(None, None, None, None, None, NoCgroup, None, None, Some(Recovery));
    var c := Reconcile(false, h);
    assert CommandOk(w.env, c) && LatchedCommits.Kills(p, w.state.disk, c);
    hide Reachable, ValidPolicy, Loads, Dispatch, LatchedCommits.Kills, CommandOk, Next;
    var items := Dispatch(p, w.state.disk, c).items;
    var io := seq(|items|, i => Io.Done);
    v := Next(p, w, Run(c, io));
    ReachableStep(p, w, Run(c, io));
    LatchedCommits.UnloadableIff(p, w, c, io);
  }

  /** A committed release can be latched into a disk that no longer loads: the failing input of `latch_failure`. */
  lemma Killing(p: Policy, to: Artifact) returns (w: World, v: World)
    requires ValidPolicy(p) && p.enabled && Released(p, to)
    ensures Reachable(p, w) && Loads(p, w.state.disk) && w.state.disk.journal.phase == Phase.Committed
    ensures Reachable(p, v) && !Loads(p, v.state.disk)
  {
    w := Committing(p, to);
    Guarantees.LoadsUnlessDead(p, w);
    assert !Dead(w.state.disk.journal);
    hide Reachable, ValidPolicy, Loads, Released;
    v := Spoiling(p, w, "1", "1");
  }

  // ---- rolled back ------------------------------------------------------------------------------------------------------

  function Asked(p: Policy, to: Artifact, now: nat): Transaction {
    Deal(p, to, now + ROLLBACK_TIMEOUT_MS).(rollbackConsumed := true, recoveryRequested := true)
  }

  function Blind(now: nat): Host {
    var sight := Sight(Unit("inactive", ""), None, now, now);
    Answers(now, Unit("active", "1"), Unit("inactive", "1")).(trial := Some(sight), restore := Some(sight))
  }

  lemma RestorePlanned(p: Policy, d: Disk, intent: Journal, to: Artifact, now: nat)
    requires d.active == to.digest && p.baseline.digest in d.objects
    requires intent.tx == Some(Deal(p, to, now + ROLLBACK_TIMEOUT_MS).(rollbackConsumed := true))
    ensures var requested := intent.(tx := Some(Asked(p, to, now)));
            RestorePlan(d, intent, Blind(now))
            == Plan([Step(PointActive(p.baseline.digest), intent), Step(PutMark(RestartMark), intent), Save(requested)],
                    requested, Finished)
  {
    assert Health(d.active, Blind(now).restore.value, p.baseline.digest).None?;
    hide Health;
    var requested := intent.(tx := Some(Asked(p, to, now)));
    var b, c, e := Step(PointActive(p.baseline.digest), intent), Step(PutMark(RestartMark), intent), Save(requested);
    assert [b, c] + [e] == [b, c, e];
  }

  lemma RetreatPlanned(p: Policy, d: Disk, j: Journal, to: Artifact, now: nat)
    requires j.phase == Phase.Trial && j.tx == Some(Deal(p, to, 2 + p.trialSeconds * 1000)) && now == 3 + p.trialSeconds * 1000
    requires j.hardFloor <= p.baseline.sequence && d.active == to.digest && p.baseline.digest in d.objects
    ensures var intent := Intent(j, now); var requested := intent.(tx := Some(Asked(p, to, now)));
            Settled(ReconcilePlan(d, j, Blind(now), p)).items
            == [Save(intent)] + [Step(PointActive(p.baseline.digest), intent), Step(PutMark(RestartMark), intent), Save(requested)]
  {
    var h := Blind(now);
    var intent := Intent(j, now);
    assert TrialEvidence(d.active, j.tx.value, h.trial.value).None? by {
      assert Health(d.active, h.trial.value, to.digest).None?;
    }
    RestorePlanned(p, d, intent, to, now);
    hide Health, RestorePlan, TrialEvidence;
    var back := RollbackPlan(d, j, h);
    assert back == Before([Save(intent)], RestorePlan(d, intent, h));
    hide RollbackPlan;
    assert [] + back.items == back.items;
    assert TrialPlan(d, j, h, p) == back;
    hide TrialPlan;
    assert ReconcilePlan(d, j, h, p) == back;
    hide ReconcilePlan;
    assert back.items + [] == back.items;
  }

  lemma RestoreAsked(p: Policy, d: Disk, to: Artifact, now: nat)
    requires Inside(p, d, Phase.Trial, Deal(p, to, 2 + p.trialSeconds * 1000)) && now == 3 + p.trialSeconds * 1000
    requires d.active == to.digest && p.baseline.digest in d.objects
    ensures var d' := Written(d, Settled(ReconcilePlan(d, d.journal, Blind(now), p)).items);
            Inside(p, d', Phase.RollbackIntent, Asked(p, to, now)) && d'.active == p.baseline.digest
  {
    hide ReconcilePlan, Settled, Written, Blind;
    RetreatPlanned(p, d, d.journal, to, now);
    var intent := Intent(d.journal, now);
    var requested := intent.(tx := Some(Asked(p, to, now)));
    var a, b, c, e := Save(intent), Step(PointActive(p.baseline.digest), intent), Step(PutMark(RestartMark), intent), Save(requested);
    WrittenCons(d, a, [b, c, e]);
    WrittenThree(Apply(d, a.write), b, c, e);
  }

  lemma Restored(p: Policy, d: Disk, h: Host, to: Artifact, now: nat)
    requires Inside(p, d, Phase.RollbackIntent, Asked(p, to, now)) && p.baseline.digest in d.objects
    requires ValidDigest(p.baseline.digest) && d.active == p.baseline.digest
    requires h == Answers(now, Unit("active", "1"), Unit("inactive", "1")).(restore := Some(Healthy(p.baseline.digest, now))) && now > 0
    ensures var d' := Written(d, Settled(ReconcilePlan(d, d.journal, h, p)).items);
            d'.journal.phase == Phase.RolledBack && d'.journal.installed == p.baseline && d'.journal.failed == d.journal.failed
  {
    HealthyCounts(p.baseline.digest, now);
    hide Health, ValidDigest;
    var j := d.journal;
    var back := Abandoned(j);
    assert ReconcilePlan(d, j, h, p) == Plan([Save(back)], back, Finished);
    var a, b := Save(back), Leave(RemovePending, back);
    assert Settled(ReconcilePlan(d, j, h, p)).items == [a, b];
    WrittenThree(d, a, b, b);
  }

  /** The trial fails: its target is remembered and the old release asked for. */
  lemma Retreating(p: Policy, to: Artifact) returns (v: World)
    requires ValidPolicy(p) && p.enabled && Released(p, to)
    ensures var d := v.state.disk; var tx := Asked(p, to, 3 + p.trialSeconds * 1000);
            && At(p, v, "1", "1") && Inside(p, d, Phase.RollbackIntent, tx) && to.digest in d.journal.failed
            && d.active == p.baseline.digest && p.baseline.digest in d.objects
  {
    hide Reachable, ValidPolicy, Released, Settled, ReconcilePlan, Written;
    var w := Trying(p, to);
    var now := 3 + p.trialSeconds * 1000;
    Guarantees.RollbackAuthorised(p, w);
    assert HostOk(w.env, Blind(now));
    v := Ticking(p, w, Blind(now));
    RestoreAsked(p, w.state.disk, to, now);
    Guarantees.RollbackAuthorised(p, v);
    Guarantees.TargetsNeverFailed(p, v);
  }

  /** Every newer release can be rolled back from its trial, and is then remembered as failed. */
  lemma RollingBack(p: Policy, to: Artifact) returns (v: World)
    requires ValidPolicy(p) && p.enabled && Released(p, to)
    ensures Reachable(p, v) && v.state.disk.journal.phase == Phase.RolledBack
    ensures v.state.disk.journal.installed == p.baseline && to.digest in v.state.disk.journal.failed
  {
    var now := 3 + p.trialSeconds * 1000;
    var h := Answers(now, Unit("active", "1"), Unit("inactive", "1")).(restore := Some(Healthy(p.baseline.digest, now)));
    assert ValidDigest(p.baseline.digest);
    hide Reachable, ValidPolicy, Released, ValidDigest, Settled, ReconcilePlan, Written, Healthy;
    var w := Retreating(p, to);
    assert HostOk(w.env, h);
    v := Ticking(p, w, h);
    Restored(p, w.state.disk, h, to, now);
  }

  // ---- retried --------------------------------------------------------------------------------------------------------

  lemma {:induction false} Longer(s: set<string>) returns (n: nat)
    ensures forall x | x in s :: |x| < n
  {
    if s == {} {
      n := 0;
    } else {
      var x :| x in s;
      var m := Longer(s - {x});
      n := if |x| < m then m else |x| + 1;
    }
  }

  lemma {:induction false} Listed(s: set<string>) returns (listing: seq<string>)
    ensures forall x :: x in listing <==> x in s
  {
    if s == {} {
      listing := [];
    } else {
      var x :| x in s;
      var rest := Listed(s - {x});
      listing := [x] + rest;
    }
  }

  /** A host that answers, whose bridge units show their last exits and nothing else. */
  function Idling(env: Env): Host
    requires PreflightUnit in env.units && StopUnit in env.units
  {
    Host(Some(env.boot), Some(Clock(0, 0, 0, 0)), Some(Unit("", "0")),
         Some(Props("", "", env.units[PreflightUnit].exit, "", "0", "")),
         Some(Props("", "", env.units[StopUnit].exit, "", "0", "")), NoCgroup, None, None, None)
  }

  /** The release of which the journal has seen the latest, offered again over an unchanged repository. */
  function Refetching(p: Policy, j: Journal): Fetch
    requires j.cache.Some?
  {
    Fetch(j.timeHigh, j.timeHigh, j.cache.value + "+", Filing(false, j.inventory), [], "", "", "",
          Loaded(Some(Offer(Release("nodelite", "agent", p.channel, p.target, j.seenSequence, j.hardFloor, "1"), j.seenDigest, 1, true))),
          true)
  }

  /** What the invariant says of a settled host that has fetched before. */
  predicate Refetchable(p: Policy, j: Journal) {
    && Terminal(j.phase) && j.cache.Some? && RootJson in j.inventory && j.inventory[RootJson].RootDoc?
    && j.inventory[RootJson].root.version in j.roots && SelfSigned(j.inventory[RootJson].root)
    && ValidSequence(j.seenSequence) && ValidSequence(j.hardFloor) && ValidDigest(j.seenDigest)
    && p.minimumSequence <= j.hardFloor <= j.installed.sequence <= j.seenSequence
  }

  lemma SettledRefetchable(p: Policy, env: Env, s: State)
    requires Inv(p, env, s) && Loads(p, s.disk) && Terminal(s.disk.journal.phase) && s.disk.journal.cache.Some?
    ensures Refetchable(p, s.disk.journal) && s.disk.active == s.disk.journal.installed.digest
  {
    hide HistInv, Chain, Snapshot, RemoteValid, TransactionValid, ValidDigest, SelfSigned;
  }

  lemma ReloadFinishes(p: Policy, d: Disk, j: Journal)
    requires Refetchable(p, j)
    ensures LoadPlan(d, j, Opening(p, j, Refetching(p, j))) == Loading(Pass(j), j.inventory)
  {
    hide SelfSigned, ValidDigest;
    var l := Opening(p, j, Refetching(p, j));
    assert l.client.files == j.inventory by {
      var others := j.inventory - {RootJson};
      assert others[RootJson := j.inventory[RootJson]] == j.inventory;
    }
    assert CapturePlan(j, l.initial, j.inventory) == Pass(j);
  }

  lemma ReadoptFinishes(p: Policy, d: Disk, j: Journal)
    requires Refetchable(p, j)
    ensures var plan := ReleasePlan(p, d, j, Refetching(p, j), j.inventory); plan.end.Finished? && plan.mem == j
  {
    hide SelfSigned, ValidDigest;
    var f := Refetching(p, j);
    assert ValidVersion("1");
    assert AcceptRelease(p, j, f.repository.offer.value, f.acceptedAt) == Ok(j);
    hide AcceptRelease;
  }

  lemma RefetchFinishes(p: Policy, d: Disk, j: Journal)
    requires Refetchable(p, j) && j.timeHigh <= U64_MAX && d.generations.Keys <= {j.cache.value}
    ensures var plan := FetchPlan(p, d, j, Refetching(p, j)); plan.end.Finished? && plan.mem == j
  {
    var f := Refetching(p, j);
    hide Refetchable, LoadPlan, Opening, ReleasePlan, Written;
    OneGeneration(d, j.cache.value);
    assert f.staging != j.cache.value;
    var d1 := Written(d, StagePlan(d, j, f.staging).items);
    ReloadFinishes(p, d1, j);
    ReadoptFinishes(p, Written(d1, []), j);
  }

  lemma OneGeneration(d: Disk, id: string)
    requires d.generations.Keys <= {id}
    ensures |d.generations| <= 1
  {
    assert |d.generations| == |d.generations.Keys|;
    assert {id} == d.generations.Keys + ({id} - d.generations.Keys);
  }

  lemma SweptFinishes(p: Policy, d: Disk, listing: seq<string>)
    requires Refetchable(p, d.journal) && d.journal.timeHigh <= U64_MAX && forall g :: g in listing <==> g in d.generations
    ensures var plan := FetchedPlan(p, d, d.journal, Sweep(listing, []), Refetching(p, d.journal));
            plan.end.Finished? && plan.mem == d.journal
  {
    var j := d.journal;
    GenerationsGone(d, j, listing);
    var items := GenerationItems(j, listing);
    var d1 := Written(d, items);
    assert d1.generations.Keys <= {j.cache.value};
    assert items + ObjectItems(j, []) == items;
    hide Refetchable, FetchPlan, Written;
    RefetchFinishes(p, d1, j);
  }

  lemma Reprepared(p: Policy, d: Disk, j: Journal, env: Env)
    requires PreflightUnit in env.units && StopUnit in env.units
    requires MayPrepare(j, p, Candidate(j)) && d.active == j.installed.digest
    ensures var d' := Written(d, Commands.Following(p, d, j, Idling(env)));
            d'.journal.phase == Phase.Prepared && d'.journal.tx.Some? && d'.journal.tx.value.to == Candidate(j)
  {
    hide MayPrepare, Snapshot;
    assert Candidate(j) != j.installed by {
      MayPrepareNewer(j, p);
    }
    var h, to := Idling(env), Candidate(j);
    var prepared := Opened(j, h, to);
    var a, b, c, e := Step(PointCandidate(to.digest), j), Step(CreatePending, j), Save(prepared), Step(PutMark(PreflightMark), prepared);
    assert Commands.Following(p, d, j, h) == [a] + [b, c, e];
    WrittenCons(d, a, [b, c, e]);
    WrittenThree(Apply(d, a.write), b, c, e);
    Saves.SnapshotParts(prepared);
  }

  lemma MayPrepareNewer(j: Journal, p: Policy)
    requires MayPrepare(j, p, Candidate(j))
    ensures Candidate(j).sequence > j.installed.sequence
  {
  }

  /** The disk the fetch leaves, up to what `prepare` looks at. */
  lemma RefetchedDisk(p: Policy, env: Env, s: State, listing: seq<string>)
    requires ValidPolicy(p) && Inv(p, env, s) && Loads(p, s.disk) && s.hist.note.None?
    requires Terminal(s.disk.journal.phase) && s.disk.journal.cache.Some? && s.disk.journal.timeHigh <= U64_MAX
    requires forall g :: g in listing <==> g in s.disk.generations
    ensures var j := s.disk.journal; var plan := FetchedPlan(p, s.disk, j, Sweep(listing, []), Refetching(p, j));
            && plan.end.Finished? && plan.mem == j && Written(s.disk, plan.items).journal == j
            && Written(s.disk, plan.items).active == j.installed.digest
  {
    hide Inv, ValidPolicy, Loads, FetchedPlan, Refetchable, Refetching;
    SettledRefetchable(p, env, s);
    SweptFinishes(p, s.disk, listing);
    LatchedCommits.FetchedKeeps(p, env, s, Sweep(listing, []), Refetching(p, s.disk.journal));
  }

  function Retry(p: Policy, w: World, listing: seq<string>): Command
    requires PreflightUnit in w.env.units && StopUnit in w.env.units && w.state.disk.journal.cache.Some?
  {
    Upgrade(Sweep(listing, []), Refetching(p, w.state.disk.journal), Idling(w.env))
  }

  lemma RetriedDisk(p: Policy, w: World, listing: seq<string>)
    requires ValidPolicy(p) && p.enabled && Inv(p, w.env, w.state) && Loads(p, w.state.disk) && !w.state.disk.latched
    requires PreflightUnit in w.env.units && StopUnit in w.env.units
    requires var j := w.state.disk.journal;
             Terminal(j.phase) && j.cache.Some? && j.timeHigh <= U64_MAX && MayPrepare(j, p, Candidate(j))
    requires forall g :: g in listing <==> g in w.state.disk.generations
    ensures var j' := Written(w.state.disk, Dispatch(p, w.state.disk, Retry(p, w, listing)).items).journal;
            j'.phase == Phase.Prepared && j'.tx.Some? && j'.tx.value.to == Candidate(w.state.disk.journal)
  {
    hide Inv, ValidPolicy, Loads, FetchedPlan, Refetching, Idling, MayPrepare, Written, Dispatch, UpgradeScript, Commands.Following, Begin;
    var d, c := w.state.disk, Retry(p, w, listing);
    var t := Begin(p, w.env, w.state, c);
    BeginInv(p, w.env, w.state, c);
    BeginSet(p, w.env, w.state, c);
    RefetchedDisk(p, w.env, t, listing);
    DispatchedUpgrade(p, d, c);
    UpgradeItems(p, d, c.sweep, c.fetch, c.host);
    var fetched := FetchedPlan(p, d, d.journal, c.sweep, c.fetch);
    var d1 := Written(d, fetched.items);
    Liveness.WrittenConcat(d, fetched.items, Commands.Following(p, d1, fetched.mem, c.host));
    Reprepared(p, d1, d.journal, w.env);
  }

  lemma UnitsKnown(p: Policy, w: World)
    requires Inv(p, w.env, w.state)
    ensures PreflightUnit in w.env.units && StopUnit in w.env.units && w.env.boot in w.env.boots
  {
    hide DiskInv, StreakInv, FailedInv, TruthInv, AcceptedInv, Succeeded, SampleFresh;
  }

  /** The guard of `prepare` is all that keeps a settled host from preparing the latest seen release again. */
  lemma Retrying(p: Policy, w: World) returns (v: World)
    requires ValidPolicy(p) && p.enabled && Reachable(p, w) && Loads(p, w.state.disk) && !w.state.disk.latched
    requires var j := w.state.disk.journal;
             Terminal(j.phase) && j.cache.Some? && j.timeHigh <= U64_MAX && MayPrepare(j, p, Candidate(j))
    ensures Reachable(p, v) && v.state.disk.journal.phase == Phase.Prepared && v.state.disk.journal.tx.Some?
    ensures v.state.disk.journal.tx.value.to == Candidate(w.state.disk.journal)
  {
    hide Reachable, Inv, ValidPolicy, Loads, MayPrepare, Dispatch, Written, Refetching;
    ReachableInv(p, w);
    UnitsKnown(p, w);
    var listing := Listed(w.state.disk.generations.Keys);
    assert forall g :: g in listing <==> g in w.state.disk.generations;
    RetriedDisk(p, w, listing);
    v := Performing(p, w, Retry(p, w, listing));
  }

  /** The machine reboots under a prepared transaction. */
  lemma Rebooting(p: Policy, w: World) returns (v: World)
    requires ValidPolicy(p) && Reachable(p, w) && Open(w.state.disk.journal.phase)
    ensures Reachable(p, v) && v.state == w.state && PreflightUnit in v.env.units && StopUnit in v.env.units
    ensures w.state.disk.journal.tx.Some? && w.state.disk.journal.tx.value.boot != v.env.boot
  {
    ReachableInv(p, w);
    BootKnown(p, w);
    hide Reachable, Inv, ValidPolicy;
    var n := Longer(w.env.boots);
    var boot: string := seq(n, i => 'b');
    assert boot !in w.env.boots;
    v := Next(p, w, Reboot(boot));
    ReachableStep(p, w, Reboot(boot));
  }

  lemma BootKnown(p: Policy, w: World)
    requires Inv(p, w.env, w.state) && Open(w.state.disk.journal.phase)
    ensures w.state.disk.journal.tx.Some? && w.state.disk.journal.tx.value.boot in w.env.boots
  {
    hide DiskInv, StreakInv, FailedInv, TruthInv, AcceptedInv, Succeeded, SampleFresh;
  }

  lemma AbandonedDisk(p: Policy, d: Disk, to: Artifact, env: Env)
    requires Inside(p, d, Phase.Prepared, Deal(p, to, BRIDGE_TIMEOUT_MS)) && d.active == p.baseline.digest
    requires PreflightUnit in env.units && StopUnit in env.units && env.boot != BOOT
    ensures var d' := Written(d, Settled(ReconcilePlan(d, d.journal, Idling(env), p)).items);
            d'.journal == Abandoned(d.journal) && d'.latched == d.latched
  {
    var j := d.journal;
    var back := Abandoned(j);
    assert ReconcilePlan(d, j, Idling(env), p) == Plan([Save(back)], back, Finished);
    var a, b := Save(back), Leave(RemovePending, back);
    assert Settled(ReconcilePlan(d, j, Idling(env), p)).items == [a, b];
    WrittenThree(d, a, b, b);
  }

  lemma AbandonedMay(p: Policy, d: Disk, to: Artifact)
    requires ValidPolicy(p) && Released(p, to) && Inside(p, d, Phase.Prepared, Deal(p, to, BRIDGE_TIMEOUT_MS)) && Offers(d, to)
    ensures var j := Abandoned(d.journal);
            && MayPrepare(j, p, Candidate(j)) && Candidate(j) == to && Terminal(j.phase) && j.cache.Some?
            && to.digest !in j.failed && j.phase == Phase.RolledBack && !d.latched && j.timeHigh <= U64_MAX
  {
  }

  /**
   * A reboot before the stop forgives: under every enabled policy a newer release is abandoned without
   * being remembered as failed, and the very same release is then prepared again.
   */
  lemma Forgiving(p: Policy, to: Artifact) returns (w: World, v: World)
    requires ValidPolicy(p) && p.enabled && Released(p, to)
    ensures Reachable(p, w) && w.state.disk.journal.phase == Phase.RolledBack && to.digest !in w.state.disk.journal.failed
    ensures w.state.disk.journal.tx.Some? && w.state.disk.journal.tx.value.to == to
    ensures Reachable(p, v) && v.state.disk.journal.phase == Phase.Prepared
    ensures v.state.disk.journal.tx.Some? && v.state.disk.journal.tx.value.to == to
  {
    var u := Preparing(p, to);
    AbandonedMay(p, u.state.disk, to);
    Guarantees.PointerConsistent(p, u);
    assert Inside(p, u.state.disk, Phase.Prepared, Deal(p, to, BRIDGE_TIMEOUT_MS));
    assert u.state.disk.journal.tx == Some(Deal(p, to, BRIDGE_TIMEOUT_MS)) && u.state.disk.active == p.baseline.digest;
    hide Reachable, ValidPolicy, Released, Offers, MayPrepare, Settled, ReconcilePlan, Written, Inside;
    var x := Rebooting(p, u);
    var h := Idling(x.env);
    assert HostOk(x.env, h);
    w := Ticking(p, x, h);
    AbandonedDisk(p, x.state.disk, to, x.env);
    Guarantees.LoadsUnlessDead(p, w);
    v := Retrying(p, w);
  }

  // ---- stuck ----------------------------------------------------------------------------------------------------------

  /** A host on which `active` does not verify. */
  function Faulty(): Host {
    Host(None, None, None, None, None, NoCgroup, None, None, Some(Recovery))
  }

  /** The timer, ticking for ever while updates are paused. */
  function Beating(): nat -> Liveness.Beat {
    (n: nat) => Liveness.Beat(Run(Reconcile(false, Faulty()), []), false)
  }

  lemma RefusedItems(q: Policy, d: Disk)
    requires !q.enabled && Loads(q, d)
    ensures Dispatch(q, d, Reconcile(false, Faulty())).items == []
  {
    hide Loads;
  }

  lemma {:induction false} NothingMoves(p: Policy, w: World, n: nat)
    requires Loads(p, w.state.disk)
    ensures var v := Liveness.At(p, w, Beating(), n); v.state.disk == w.state.disk && v.env == w.env
    decreases n
  {
    hide Next, Performed;
    if n > 0 {
      NothingMoves(p, w, n - 1);
      var v := Liveness.At(p, w, Beating(), n - 1);
      var q := Liveness.Under(p, Beating()(n - 1));
      Liveness.RefusedWritesNothing(q, v.state.disk, Reconcile(false, Faulty()), []);
      Liveness.NothingDone(q, v, Beating()(n - 1).event);
    }
  }

  lemma BeatingStalls(p: Policy, w: World)
    requires Loads(p, w.state.disk) && HostOk(w.env, Faulty())
    requires Open(w.state.disk.journal.phase) && !w.state.disk.latched
    ensures Liveness.Calm(p, w, Beating()) && Liveness.StuckFrom(p, w, Beating(), 0)
  {
    hide Dispatch, HostOk;
    forall n: nat ensures Liveness.CalmBeat(p, Liveness.At(p, w, Beating(), n), Beating()(n)) {
      NothingMoves(p, w, n);
      RefusedItems(Liveness.Under(p, Beating()(n)), w.state.disk);
    }
    NothingMoves(p, w, 0);
  }

  /**
   * Paused during a trial, with an `active` that does not verify, the updater neither finishes the
   * transaction nor calls an operator, however long the timer ticks.
   */
  lemma Stalling(p: Policy, to: Artifact) returns (w: World)
    requires ValidPolicy(p) && p.enabled && Released(p, to)
    ensures Reachable(p, w) && w.state.disk.journal.phase == Phase.Trial && !w.state.disk.latched
    ensures Liveness.Calm(p, w, Beating()) && Liveness.StuckFrom(p, w, Beating(), 0)
  {
    w := Trying(p, to);
    assert w.state.disk.journal.phase == Phase.Trial && Open(w.state.disk.journal.phase);
    hide Reachable, Inv, ValidPolicy, Loads, Released, Inside, Liveness.Calm, Liveness.StuckFrom;
    ReachableInv(p, w);
    UnitsKnown(p, w);
    assert HostOk(w.env, Faulty());
    Liveness.OpenLoads(p, w);
    BeatingStalls(p, w);
  }
}
