/**
 * Whole runs: commands, unit completions, reboots and lost power in any order, from enrollment on.
 * Losing power inside a command is a `Run` whose `io` script ends early, so the reachable worlds
 * include every moment between two durable writes.
 */
module Runs {
  import opened Options
  import opened LocalPolicy
  import opened Trust
  import opened Journals
  import opened Disks
  import opened Hosts
  import opened Runtime
  import opened Worlds
  import opened Safety
  import opened Commands

  datatype World = World(env: Env, state: State)

  datatype Event =
    | Run(command: Command, io: seq<Io>)
    | Complete(unit: UnitName, exit: string, success: bool)
    | Unset(unit: UnitName)
    | Consume(mark: Mark)
    | Reboot(boot: string)
    | Unlatch

  /** The writes of a run and the state it starts from. */
  function Started(p: Policy, w: World, c: Command): State {
    Begin(p, w.env, w.state, c)
  }

  function Happened(p: Policy, w: World, e: Event): seq<Write> {
    if e.Run? then Performed(p, w.state.disk, e.command, e.io) else []
  }

  function Next(p: Policy, w: World, e: Event): World {
    match e
    case Run(c, io) => w.(state := DoAll(Started(p, w, c), Happened(p, w, e)))
    case Complete(unit, exit, success) =>
      w.(env := w.env.(units := w.env.units[unit := UnitState(exit, success)],
                       log := w.env.log + [Completion(unit, w.env.boot, exit, success)]))
    case Unset(unit) => w.(env := w.env.(units := w.env.units[unit := UnitState("0", false)]))
    case Consume(mark) => w.(state := w.state.(disk := w.state.disk.(marks := w.state.disk.marks - {mark})))
    case Reboot(boot) =>
      w.(env := Env(boot, w.env.boots + {boot},
                    map[PreflightUnit := UnitState("0", false), StopUnit := UnitState("0", false)], w.env.log))
    case Unlatch => w.(state := w.state.(disk := w.state.disk.(latched := false)))
  }

  /** The host answers truthfully, and no boot id comes back. */
  predicate EventOk(w: World, e: Event) {
    match e
    case Run(c, io) => CommandOk(w.env, c)
    case Reboot(boot) => boot !in w.env.boots
    case Complete(_, _, _) => true
    case Unset(_) => true
    case Consume(_) => true
    case Unlatch => true
  }

  function StepAll(p: Policy, w: World, es: seq<Event>): World
    decreases |es|
  {
    if es == [] then w else StepAll(p, Next(p, w, es[0]), es[1..])
  }

  predicate AllOk(p: Policy, w: World, es: seq<Event>)
    decreases |es|
  {
    es == [] || (EventOk(w, es[0]) && AllOk(p, Next(p, w, es[0]), es[1..]))
  }

  /** The disk `initialize` leaves. */
  function EnrolledDisk(p: Policy, now: nat): Disk {
    Disk(Enrolled(p, now), p.baseline.digest, p.baseline.digest, false, false, {}, {p.baseline.digest}, map[], {})
  }

  function EnrolledWorld(p: Policy, now: nat, boot: string): World {
    World(
      Env(boot, {boot}, map[PreflightUnit := UnitState("0", false), StopUnit := UnitState("0", false)], []),
      State(EnrolledDisk(p, now), History({}, [], [], [], 0, 0, 0, false, None, false, false)))
  }

  /** Everything any run from enrollment can lead to. */
  ghost predicate Reachable(p: Policy, w: World) {
    exists now: nat, boot: string, es: seq<Event> :: Leads(p, now, boot, es, w)
  }

  ghost predicate Leads(p: Policy, now: nat, boot: string, es: seq<Event>, w: World) {
    now > 0 && AllOk(p, EnrolledWorld(p, now, boot), es) && StepAll(p, EnrolledWorld(p, now, boot), es) == w
  }

  // ---- the invariant over runs --------------------------------------------------------------------------

  lemma EnrolledInv(p: Policy, now: nat, boot: string)
    requires ValidPolicy(p) && now > 0
    ensures var w := EnrolledWorld(p, now, boot); Inv(p, w.env, w.state)
  {
    assert Spans(p.bootstrap, map[], p.bootstrap.version);
  }

  /** The host's own steps. */
  lemma CompleteKeeps(p: Policy, w: World, unit: UnitName, exit: string, success: bool)
    requires Inv(p, w.env, w.state)
    ensures var v := Next(p, w, Complete(unit, exit, success)); Inv(p, v.env, v.state)
  {
    var v := Next(p, w, Complete(unit, exit, success));
    hide DiskInv, StreakInv, FailedInv, TruthInv, AcceptedInv;
    var j, h := w.state.disk.journal, w.state.hist;
    assert BarrierInv(w.env, j, h);
    assert forall i | 0 <= i < |w.env.log| :: v.env.log[i] == w.env.log[i];
    assert v.env.log[|w.env.log|] == Completion(unit, w.env.boot, exit, success);
    assert forall u, b, from, until :: Succeeded(w.env.log, u, b, from, until) ==> Succeeded(v.env.log, u, b, from, until) by {
      forall u, b, from, until | Succeeded(w.env.log, u, b, from, until) ensures Succeeded(v.env.log, u, b, from, until) {
        SucceededStays(w.env.log, v.env.log, u, b, from, until);
      }
    }
    forall u: UnitName, sampled, since: nat | u in w.env.units && since <= |w.env.log| && SampleFresh(w.env, u, sampled, since)
      ensures SampleFresh(v.env, u, sampled, since)
    {
      SampleStays(w.env, v.env, unit, u, sampled, since);
    }
    SucceededGrows(w.env.log, v.env.log, StopUnit, if j.tx.Some? then j.tx.value.boot else "", h.stoppedAt);
  }

  lemma SucceededStays(log: seq<Completion>, longer: seq<Completion>, unit: UnitName, boot: string, from: nat, until: nat)
    requires log <= longer && Succeeded(log, unit, boot, from, until)
    ensures Succeeded(longer, unit, boot, from, until)
  {
    var i :| from <= i < until && i < |log| && log[i].unit == unit && log[i].boot == boot && log[i].success;
    assert longer[i] == log[i];
  }

  lemma SucceededGrows(log: seq<Completion>, longer: seq<Completion>, unit: UnitName, boot: string, from: nat)
    requires log <= longer
    ensures Succeeded(log, unit, boot, from, |log|) ==> Succeeded(longer, unit, boot, from, |longer|)
  {
    if Succeeded(log, unit, boot, from, |log|) {
      var i :| from <= i < |log| && log[i].unit == unit && log[i].boot == boot && log[i].success;
      assert longer[i] == log[i];
    }
  }

  lemma SampleStays(env: Env, env': Env, changed: UnitName, unit: UnitName, sampled: string, since: nat)
    requires unit in env.units && since <= |env.log| && SampleFresh(env, unit, sampled, since)
    requires unit in env'.units && env'.boot == env.boot && |env'.log| == |env.log| + 1 && env.log <= env'.log
    requires changed != unit ==> env'.units[unit] == env.units[unit]
    requires changed == unit ==>
               env'.log[|env.log|] == Completion(unit, env.boot, env'.units[unit].exit, env'.units[unit].success)
    ensures SampleFresh(env', unit, sampled, since)
  {
    if changed != unit && env.units[unit].exit != sampled && RealExit(env.units[unit].exit) {
      var u := env.units[unit];
      var i :| since <= i < |env.log| && env.log[i] == Completion(unit, env.boot, u.exit, u.success);
      assert env'.log[i] == env.log[i];
    }
  }

  lemma HostKeeps(p: Policy, w: World, e: Event)
    requires Inv(p, w.env, w.state) && EventOk(w, e) && !e.Run?
    ensures var v := Next(p, w, e); Inv(p, v.env, v.state)
  {
    match e
    case Complete(unit, exit, success) =>
      hide Inv;
      CompleteKeeps(p, w, unit, exit, success);
    case Unset(unit) => UnsetKeeps(p, w, unit);
    case Consume(mark) => AsideKeeps(p, w, e);
    case Unlatch => AsideKeeps(p, w, e);
    case Reboot(boot) => RebootKeeps(p, w, boot);
  }

  lemma UnsetKeeps(p: Policy, w: World, unit: UnitName)
    requires Inv(p, w.env, w.state)
    ensures var v := Next(p, w, Unset(unit)); Inv(p, v.env, v.state)
  {
    hide DiskInv, StreakInv, FailedInv, TruthInv, AcceptedInv, Succeeded;
  }

  lemma RebootKeeps(p: Policy, w: World, boot: string)
    requires Inv(p, w.env, w.state) && boot !in w.env.boots
    ensures var v := Next(p, w, Reboot(boot)); Inv(p, v.env, v.state)
  {
    hide DiskInv, StreakInv, FailedInv, TruthInv, AcceptedInv, Succeeded, SampleFresh;
  }

  lemma AsideKeeps(p: Policy, w: World, e: Event)
    requires Inv(p, w.env, w.state) && (e.Consume? || e.Unlatch?)
    ensures var v := Next(p, w, e); Inv(p, v.env, v.state)
  {
    hide BarrierInv, StreakInv, FailedInv, TruthInv, AcceptedInv, Lawful, Chain;
  }

  lemma StepKeeps(p: Policy, w: World, e: Event)
    requires ValidPolicy(p) && Inv(p, w.env, w.state) && EventOk(w, e)
    ensures var v := Next(p, w, e); Inv(p, v.env, v.state)
    ensures e.Run? ==> AllSafe(p, w.env, Started(p, w, e.command), Happened(p, w, e))
  {
    hide Inv, ValidPolicy, Performed, Begin;
    if e.Run? {
      PerformedSafe(p, w.env, w.state, e.command, e.io);
      AllSafeEnds(p, w.env, Started(p, w, e.command), Happened(p, w, e));
    } else {
      HostKeeps(p, w, e);
    }
  }

  lemma {:induction false} StepAllKeeps(p: Policy, w: World, es: seq<Event>)
    requires ValidPolicy(p) && Inv(p, w.env, w.state) && AllOk(p, w, es)
    ensures var v := StepAll(p, w, es); Inv(p, v.env, v.state)
    decreases |es|
  {
    hide Inv, ValidPolicy, Next, EventOk;
    if es != [] {
      StepKeeps(p, w, es[0]);
      StepAllKeeps(p, Next(p, w, es[0]), es[1..]);
    }
  }

  /** The invariant holds in every world any run can reach. */
  lemma ReachableInv(p: Policy, w: World)
    ensures ValidPolicy(p) && Reachable(p, w) ==> Inv(p, w.env, w.state)
  {
    if ValidPolicy(p) && Reachable(p, w) {
      var now: nat, boot: string, es: seq<Event> :| Leads(p, now, boot, es, w);
      EnrolledInv(p, now, boot);
      hide Inv, ValidPolicy, EnrolledWorld;
      StepAllKeeps(p, EnrolledWorld(p, now, boot), es);
    }
  }

  /** And every write of every command, wherever the power fails, is permitted where it happens. */
  lemma ReachableWrites(p: Policy, w: World, c: Command, io: seq<Io>)
    ensures ValidPolicy(p) && Reachable(p, w) && CommandOk(w.env, c) ==>
              AllSafe(p, w.env, Started(p, w, c), Performed(p, w.state.disk, c, io))
  {
    if ValidPolicy(p) && Reachable(p, w) && CommandOk(w.env, c) {
      ReachableInv(p, w);
      hide Inv, ValidPolicy, Performed, Begin, Reachable, CommandOk;
      PerformedSafe(p, w.env, w.state, c, io);
    }
  }

  lemma {:induction false} StepAllSnoc(p: Policy, w: World, es: seq<Event>, e: Event)
    ensures StepAll(p, w, es + [e]) == Next(p, StepAll(p, w, es), e)
    ensures AllOk(p, w, es) && EventOk(StepAll(p, w, es), e) ==> AllOk(p, w, es + [e])
    decreases |es|
  {
    hide Next, EventOk;
    if es == [] {
      assert [e][1..] == [];
      assert [] + [e] == [e];
      assert StepAll(p, w, [e]) == StepAll(p, Next(p, w, e), []);
    } else {
      assert (es + [e])[1..] == es[1..] + [e];
      StepAllSnoc(p, Next(p, w, es[0]), es[1..], e);
    }
  }

  /** A run may go on. */
  lemma ReachableStep(p: Policy, w: World, e: Event)
    requires Reachable(p, w) && EventOk(w, e)
    ensures Reachable(p, Next(p, w, e))
  {
    var now: nat, boot: string, es: seq<Event> :| Leads(p, now, boot, es, w);
    hide Next, EventOk, EnrolledWorld;
    StepAllSnoc(p, EnrolledWorld(p, now, boot), es, e);
    assert Leads(p, now, boot, es + [e], Next(p, w, e));
  }

  // ---- a single write among those of a command --------------------------------------------------------------

  /** Before write `i`, the state and what made it permitted. */
  lemma {:induction false} SafeAt(p: Policy, env: Env, s: State, ws: seq<Write>, i: nat)
    requires AllSafe(p, env, s, ws) && i < |ws|
    ensures var t := DoAll(s, ws[..i]);
            Inv(p, env, t) && Permitted(p, t, ws[i]) && DoAll(s, ws[..i + 1]) == Do(t, ws[i])
    decreases i
  {
    hide Inv, Permitted, Do;
    if i == 0 {
      assert ws[..0] == [];
      assert DoAll(s, ws[..1]) == DoAll(Do(s, ws[0]), ws[..1][1..]);
      assert ws[..1][1..] == [];
    } else {
      SafeAt(p, env, Do(s, ws[0]), ws[1..], i - 1);
      assert ws[..i][1..] == ws[1..][..i - 1] && ws[..i + 1][1..] == ws[1..][..i];
      assert ws[..i][0] == ws[0] && ws[..i + 1][0] == ws[0];
    }
  }
}
