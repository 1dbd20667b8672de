/** The commands, the gate before them and what happens after a failed one. */
module Runtime {
  import opened Options
  import opened AgentUpdate
  import opened LocalPolicy
  import opened Trust
  import opened Journals
  import opened Disks
  import opened Hosts
  import opened Activate
  import opened Download

  datatype Command =
    | Reconcile(boot: bool, host: Host)
    | Fetching(sweep: Sweep, fetch: Fetch)
    | Upgrade(sweep: Sweep, fetch: Fetch, host: Host)
    | Remote(request: Request, now: nat, sweep: Sweep, fetch: Fetch, host: Host)
    | ResetTimeFloor(confirmed: bool, now: nat)
    | ShowStatus

  // ---- loading --------------------------------------------------------------------------------------

  predicate RootsStored(d: Disk) {
    forall v | v in d.journal.roots ::
      var r := d.journal.roots[v];
      r in d.rootFiles && SelfSigned(r) && r.version == v
  }

  predicate CacheStored(d: Disk) {
    if d.journal.cache.Some? then
      var g := d.journal.cache.value;
      g in d.generations && d.generations[g] == d.journal.inventory
    else d.journal.inventory == map[]
  }

  predicate ObjectsStored(d: Disk) {
    && d.journal.installed.digest in d.objects
    && (d.journal.tx.Some? ==>
          d.journal.tx.value.from.digest in d.objects && d.journal.tx.value.to.digest in d.objects)
  }

  /** `Store::load` succeeds. */
  predicate Loads(p: Policy, d: Disk) {
    Validate(p, d.journal) && RootsStored(d) && CacheStored(d) && ObjectsStored(d)
  }

  // ---- the gate -------------------------------------------------------------------------------------

  datatype Gate = Proceed | Idle

  datatype Facts = Facts(
    paused: bool, recoveryRequired: bool, terminal: bool,
    active: Digest, installed: Digest, from: Option<Digest>)

  /** `gate::reconcile` */
  function Decide(f: Facts): Gate {
    if f.recoveryRequired then
      if f.active == f.installed || Some(f.active) == f.from then Gate.Idle else Proceed
    else if f.paused && f.terminal && f.active == f.installed then Gate.Idle
    else Proceed
  }

  /** `idle`; an `active` that does not verify is an error that leaves the command. */
  function IdleGate(p: Policy, d: Disk, fault: Option<Error>): Result<Gate> {
    if !d.latched && p.enabled then Ok(Proceed)
    else if fault.Some? then Err(fault.value)
    else
      var j := d.journal;
      var from := if j.tx.Some? && j.tx.value.from.sequence >= j.hardFloor && !Terminal(j.phase)
                  then Some(j.tx.value.from.digest) else None;
      Ok(Decide(Facts(!p.enabled, d.latched, Terminal(j.phase), d.active, j.installed.digest, from)))
  }

  // ---- commands -------------------------------------------------------------------------------------

  datatype Script = Script(items: seq<Item>, failed: bool)

  function Tidy(mem: Journal): seq<Item> {
    if Terminal(mem.phase) then [Leave(RemovePending, mem)] else []
  }

  /** The end of `dispatch` for the two calls whose errors reach `latch_failure`. */
  function Settled(plan: Plan): Script {
    match plan.end
    case Finished => Script(plan.items + Tidy(plan.mem), false)
    case Failed(e) => Script(plan.items + LatchItems(plan.mem, e), true)
  }

  function Prefix(items: seq<Item>, s: Script): Script {
    s.(items := items + s.items)
  }

  function BootItems(boot: bool, j: Journal): seq<Item> {
    if boot then [Leave(ClearMarks, j)] else []
  }

  function ReconcileScript(p: Policy, d: Disk, boot: bool, h: Host): Script {
    var j := d.journal;
    var gate := IdleGate(p, d, h.activeFault);
    if gate.Err? then Script([], true)
    else if gate.value.Idle? then Script(BootItems(boot, j) + Tidy(j), false)
    else if d.latched then Script([], true)
    else
      var recovered := RecoverDownload(j);
      var first := BootItems(boot, j)
                   + (if recovered == j then [] else [Leave(SaveJournal(recovered), recovered)]);
      Prefix(first, Settled(ReconcilePlan(Written(d, first), recovered, h, p)))
  }

  function FetchedPlan(p: Policy, d: Disk, j: Journal, s: Sweep, f: Fetch): Plan {
    var collected := CollectPlan(j, s);
    Then(collected, FetchPlan(p, Written(d, collected.items), j, f))
  }

  function FetchScript(p: Policy, d: Disk, s: Sweep, f: Fetch): Script {
    var j := d.journal;
    if d.latched || !Terminal(j.phase) then Script([], true)
    else
      var fetched := FetchedPlan(p, d, j, s, f);
      if fetched.end.Failed? then Script(fetched.items, true)
      else Script(fetched.items + Tidy(fetched.mem), false)
  }

  function UpgradeScript(p: Policy, d: Disk, s: Sweep, f: Fetch, h: Host): Script {
    var j := d.journal;
    if d.latched || !Terminal(j.phase) then Script([], true)
    else
      var fetched := FetchedPlan(p, d, j, s, f);
      if fetched.end.Failed? then Script(fetched.items, true)
      else
        var candidate := Candidate(fetched.mem);
        if candidate != fetched.mem.installed then
          Prefix(fetched.items, Settled(PreparePlan(Written(d, fetched.items), fetched.mem, h, p, candidate)))
        else
          var current := MarkUpToDate(fetched.mem);
          Script(fetched.items + [Leave(SaveJournal(current), current)] + Tidy(current), false)
  }

  /** `dispatch`, for every command that takes the lock itself. */
  function Dispatch(p: Policy, d: Disk, c: Command): Script
    requires !c.Remote?
  {
    if !p.enabled && (c.Fetching? || c.Upgrade?) then Script([], true)
    else if !Loads(p, d) then Script([Item(RequireRecovery, d.journal, Ignored)], true)
    else
      match c
      case Reconcile(boot, h) => ReconcileScript(p, d, boot, h)
      case ShowStatus => Script(Tidy(d.journal), false)
      case ResetTimeFloor(confirmed, now) =>
        if d.latched then Script([], true)
        else
          var plan := PlanReset(confirmed, Terminal(d.journal.phase), d.latched, d.journal.timeHigh, now);
          if plan.Ok? && plan.value.Lowered? then
            var lowered := d.journal.(timeHigh := plan.value.lowered);
            Script([Leave(SaveJournal(lowered), lowered)], false)
          else Script([], plan.Err?)
      case Fetching(s, f) => FetchScript(p, d, s, f)
      case Upgrade(s, f, h) => UpgradeScript(p, d, s, f, h)
  }

  /** `remote::run` up to the durable acceptance. */
  function AcceptScript(p: Policy, d: Disk, request: Request, now: nat): Script {
    if !p.enabled then Script([], true)
    else if !Loads(p, d) then Script([Item(RequireRecovery, d.journal, Ignored)], true)
    else if d.latched then Script([], true)
    else
      var accepted := Accept(p, d.journal, request, now);
      if accepted.Err? then Script([], true)
      else
        Script([Leave(CreatePending, accepted.value), Leave(SaveJournal(accepted.value), accepted.value)], false)
  }

  /** The last part of `remote::run`, decided from the disk the apply left behind. */
  function ReportScript(p: Policy, d: Disk, failed: bool): Script {
    if !Loads(p, d) then Script([], true)
    else Script([Leave(SaveJournal(Reported(d.journal, failed)), Reported(d.journal, failed))], failed)
  }

  /** An accepted request: its apply, and the report on how that ended. */
  function Applied(p: Policy, d: Disk, c: Command, io: seq<Io>): seq<Write>
    requires c.Remote?
  {
    var applying := Dispatch(p, d, Upgrade(c.sweep, c.fetch, c.host));
    var applied := Execute(applying.items, io);
    if applied.off then applied.writes
    else
      var report := ReportScript(p, ApplyAll(d, applied.writes), applying.failed || applied.failed);
      applied.writes + Execute(report.items, applied.io).writes
  }

  /** The durable writes a command gets done under an `io` script. */
  function Performed(p: Policy, d: Disk, c: Command, io: seq<Io>): seq<Write> {
    if !c.Remote? then Execute(Dispatch(p, d, c).items, io).writes
    else
      var accepting := AcceptScript(p, d, c.request, c.now);
      var accepted := Execute(accepting.items, io);
      if accepted.off || accepted.failed || accepting.failed then accepted.writes
      else accepted.writes + Applied(p, ApplyAll(d, accepted.writes), c, accepted.io)
  }
}
