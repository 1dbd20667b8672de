/**
 * The updater as it is written: methods that change the journal in memory and attempt one durable
 * write after another, leaving at the first error. Each is proved to do what its plan says.
 */
module Updaters {
  import opened Options
  import opened AgentUpdate
  import opened LocalPolicy
  import opened Trust
  import opened Journals
  import opened Disks
  import opened Hosts
  import opened Activate
  import opened Download
  import opened Machines
  import opened Runtime

  /** The last part of a trial tick. */
  function Deadline(d: Disk, j: Journal, h: Host): Plan
    requires j.tx.Some?
  {
    if h.clock.None? then Stop(j, Failure)
    else if h.clock.value.second <= j.tx.value.deadline then Pass(j)
    else RollbackPlan(d, j, h)
  }

  /** `TrialPlan`, with its tail as one plan. */
  lemma TrialEnds(d: Disk, j: Journal, h: Host, p: Policy)
    requires j.tx.Some? && j.phase == Phase.Trial && h.boot == Some(j.tx.value.boot) && h.trial.Some?
    ensures var evidence := TrialEvidence(d.active, j.tx.value, h.trial.value);
            var v := Judge(j.tx.value, evidence, if h.clock.Some? then h.clock.value.first else 0, p);
            var judged := Judged(j, v);
            TrialPlan(d, j, h, p) ==
            if h.clock.None? && evidence.Some? then Stop(UntimedJudged(j, evidence.value), Failure)
            else if v.Commit? then Plan([Save(judged)], judged, Finished)
            else if v.Keep? then Deadline(d, judged, h)
            else Before([Save(judged)], Deadline(d, judged, h))
  {
    hide RollbackPlan, TrialEvidence;
    var evidence := TrialEvidence(d.active, j.tx.value, h.trial.value);
    var v := Judge(j.tx.value, evidence, if h.clock.Some? then h.clock.value.first else 0, p);
    var judged := Judged(j, v);
    assert [Save(judged)] + [] == [Save(judged)];
    BeforeNothing(RollbackPlan(d, judged, h));
  }

  lemma BeforeNothing(plan: Plan)
    ensures Before([], plan) == plan
  {
    assert [] + plan.items == plan.items;
  }

  // ---- guarded writes -----------------------------------------------------------------------------------

  lemma {:induction false} BrokenFails(d: Disk, j: Journal, l: Load)
    requires l.broken
    ensures LoadPlan(d, j, l).plan.end.Failed?
    decreases |l.visits|
  {
    hide CapturePlan, Refreshed, Written, Guarded;
    if l.visits != [] {
      BrokenFails(d, j, Aborted(l));
      var captured := CapturePlan(j, l.initial, l.client.files);
      var refreshed := Refreshed(Written(d, captured.items), captured.mem, l.client.files, l.visits[0].nonce, Begun(l).publishing);
      BrokenFails(Written(Written(d, captured.items), refreshed.items), refreshed.mem, NextLoad(Begun(l), refreshed));
    }
  }

  /** A load that goes on after an error ends with one. */
  lemma BrokenCarry(d: Disk, j: Journal, l: Load, io: seq<Io>)
    requires l.broken
    ensures var r := Carry(d, LoadPlan(d, j, l).plan, io); Spoiled(r) == r
  {
    BrokenFails(d, j, l);
    CarryEnds(d, LoadPlan(d, j, l).plan, io);
    hide LoadPlan;
  }

  /** Guarded writes: all of them and then `rest`, or the load goes on as `l` from where one failed. */
  lemma {:induction false} GuardedCarry(d: Disk, first: Plan, l: Load, rest: Plan, io: seq<Io>)
    requires AllPlain(first.items) && l.broken
    ensures var r := Carry(d, first.(end := Finished), io);
            Carry(d, Before(Guarded(d, first.items, l), rest), io)
            == match r.end
               case PowerOff => r
               case Fine => Carry(r.disk, rest, r.io)
               case _ => Carry(r.disk, LoadPlan(r.disk, r.mem, l).plan, r.io)
    decreases |io|
  {
    var guarded := Guarded(d, first.items, l);
    hide LoadPlan;
    if first.items == [] {
      assert guarded + rest.items == rest.items;
    } else {
      var item, next := first.items[0], Apply(d, first.items[0].write);
      var tail := Guarded(next, first.items[1..], l);
      assert (guarded + rest.items)[1..] == tail + rest.items;
      hide Guarded;
      if io != [] && io[0].Done? {
        GuardedCarry(next, first.(items := first.items[1..]), l, rest, io[1..]);
      } else if io != [] {
        BrokenCarry(if io[0].Lost? then d else next, item.mem, l, io[1..]);
      }
    }
  }

  lemma CapturePlain(j: Journal, initial: Root, files: Inventory)
    ensures var plan := CapturePlan(j, initial, files);
            AllPlain(plan.items) && AllLeaving(plan.items) && (plan.end.Failed? ==> plan == Stop(j, plan.end.error))
  {
    hide Continues, SelfSigned;
  }

  lemma RefreshPlain(d: Disk, j: Journal, files: Inventory, nonce: string, publishing: bool)
    ensures var plan := Refreshed(d, j, files, nonce, publishing);
            AllPlain(plan.items) && AllLeaving(plan.items) && (plan.end.Failed? ==> plan == Stop(j, plan.end.error))
  {
  }

  /** The plan of a load, request by request. */
  lemma LoadParts(d: Disk, j: Journal, l: Load)
    requires l.visits != []
    ensures var captured := CapturePlan(j, l.initial, l.client.files);
            var begun := Begun(l);
            var d1 := Written(d, captured.items);
            var refreshed := Refreshed(d1, captured.mem, l.client.files, l.visits[0].nonce, begun.publishing);
            var rest := LoadPlan(Written(d1, refreshed.items), refreshed.mem, NextLoad(begun, refreshed));
            var second := Before(Guarded(d1, refreshed.items, Aborted(begun)), rest.plan);
            LoadPlan(d, j, l)
            == if captured.end.Failed? then LoadPlan(d, j, Aborted(l))
               else Loading(Before(Guarded(d, captured.items, Aborted(l)), second), rest.files)
  {
    hide CapturePlan, Refreshed, Written, Guarded;
    var captured := CapturePlan(j, l.initial, l.client.files);
    var begun := Begun(l);
    var d1 := Written(d, captured.items);
    var refreshed := Refreshed(d1, captured.mem, l.client.files, l.visits[0].nonce, begun.publishing);
    var rest := LoadPlan(Written(d1, refreshed.items), refreshed.mem, NextLoad(begun, refreshed));
    var a, b := Guarded(d, captured.items, Aborted(l)), Guarded(d1, refreshed.items, Aborted(begun));
    assert a + b + rest.plan.items == a + (b + rest.plan.items);
  }

  class Updater {
    var disk: Disk
    var state: Journal
    var io: seq<Io>

    constructor (disk: Disk, io: seq<Io>)
      ensures this.disk == disk && this.io == io && this.state == disk.journal
    {
      this.disk := disk;
      this.io := io;
      this.state := disk.journal;
    }

    // ---- single writes --------------------------------------------------------------------------------

    /** One durable write, if the machine still has power. */
    method Put(w: Write) returns (r: Ended)
      modifies `disk, `io
      ensures r == if old(io) == [] then PowerOff else if old(io)[0].Done? then Fine else Broken
      ensures io == if old(io) == [] then [] else old(io)[1..]
      ensures disk == if old(io) == [] || old(io)[0].Lost? then old(disk) else Apply(old(disk), w)
    {
      if io == [] {
        return PowerOff;
      }
      var luck := io[0];
      io := io[1..];
      if !luck.Lost? {
        disk := Apply(disk, w);
      }
      r := if luck.Done? then Fine else Broken;
    }

    method SaveState() returns (r: Ended)
      modifies `disk, `io
      ensures r == if old(io) == [] then PowerOff else if old(io)[0].Done? then Fine else Broken
      ensures io == if old(io) == [] then [] else old(io)[1..]
      ensures disk == if old(io) == [] || old(io)[0].Lost? then old(disk) else Apply(old(disk), SaveJournal(state))
    {
      r := Put(SaveJournal(state));
    }

    // ---- activation -----------------------------------------------------------------------------------

    method Prepare(h: Host, p: Policy, to: Artifact) returns (r: Ended)
      modifies this
      ensures Ran(disk, state, io, r) == Carry(old(disk), PreparePlan(old(disk), old(state), h, p, to), old(io))
    {
      if !MayPrepare(state, p, to) {
        return Fault(PolicyRejected);
      }
      if h.activeFault.Some? {
        return Fault(h.activeFault.value);
      }
      if disk.active != state.installed.digest {
        return Fault(PolicyRejected);
      }
      ghost var d, j, luck := disk, state, io;
      ghost var first := Plan([Step(PointCandidate(to.digest), j), Step(CreatePending, j)], j, Finished);
      ghost var plan := PreparePlan(d, j, h, p, to);
      ghost var tail := plan.(items := if plan.end.Finished? then [Save(plan.mem), Step(PutMark(PreflightMark), plan.mem)] else []);
      assert plan == Before(first.items, tail) by {
        assert first.items + [] == first.items;
      }
      CarryThen(d, first, tail, luck);
      r := Announce(to);
      if !r.Fine? {
        return;
      }
      hide Carry;
      r := OpenTransaction(h, to, tail);
    }

    /** The candidate and the flag that keeps the timer going. */
    method Announce(to: Artifact) returns (r: Ended)
      modifies `disk, `io
      ensures Ran(disk, state, io, r)
              == Carry(old(disk), Plan([Step(PointCandidate(to.digest), state), Step(CreatePending, state)], state, Finished), old(io))
    {
      ghost var last := Plan([Step(CreatePending, state)], state, Finished);
      assert [Step(PointCandidate(to.digest), state)] + last.items
          == [Step(PointCandidate(to.digest), state), Step(CreatePending, state)];
      CarryCons(disk, Step(PointCandidate(to.digest), state), last, io);
      r := Put(PointCandidate(to.digest));
      if !r.Fine? {
        return;
      }
      assert [Step(CreatePending, state)] + [] == [Step(CreatePending, state)];
      CarryCons(disk, Step(CreatePending, state), Plan([], state, Finished), io);
      r := Put(CreatePending);
    }

    /** The host is asked, the request is bound, the transaction is saved and preflight requested. */
    method OpenTransaction(h: Host, to: Artifact, ghost tail: Plan) returns (r: Ended)
      requires tail == if h.agent.None? || h.probe.None? then Stop(state, Failure)
                       else if h.boot.None? || h.clock.None? then Stop(Bind(state, to), Failure)
                       else Plan([Save(Opened(state, h, to)), Step(PutMark(PreflightMark), Opened(state, h, to))],
                                 Opened(state, h, to), Finished)
      modifies this
      ensures Ran(disk, state, io, r) == Carry(old(disk), tail, old(io))
    {
      if h.agent.None? || h.probe.None? {
        return Fault(Failure);
      }
      state := Bind(state, to);
      if h.boot.None? || h.clock.None? {
        return Fault(Failure);
      }
      state := state.(
        tx := Some(Transaction(
          state.installed, to, h.boot.value, h.clock.value.first + BRIDGE_TIMEOUT_MS,
          h.agent.value.invocation, h.probe.value.exit, false, false, None, None, None)));
      state := state.(phase := Phase.Prepared);
      assert state == Opened(old(state), h, to);
      r := SaveThenMark(PreflightMark);
    }

    /** The journal is saved before the bridge is asked for anything. */
    method SaveThenMark(mark: Mark) returns (r: Ended)
      modifies `disk, `io
      ensures Ran(disk, state, io, r)
              == Carry(old(disk), Plan([Save(state), Step(PutMark(mark), state)], state, Finished), old(io))
    {
      ghost var last := Plan([Step(PutMark(mark), state)], state, Finished);
      assert [Save(state)] + last.items == [Save(state), Step(PutMark(mark), state)];
      CarryCons(disk, Save(state), last, io);
      r := SaveState();
      if !r.Fine? {
        return;
      }
      r := MarkOnly(mark);
    }

    method MarkOnly(mark: Mark) returns (r: Ended)
      modifies `disk, `io
      ensures Ran(disk, state, io, r) == Carry(old(disk), Plan([Step(PutMark(mark), state)], state, Finished), old(io))
    {
      assert [Step(PutMark(mark), state)] + [] == [Step(PutMark(mark), state)];
      CarryCons(disk, Step(PutMark(mark), state), Plan([], state, Finished), io);
      r := Put(PutMark(mark));
    }

    method SaveOnly() returns (r: Ended)
      modifies `disk, `io
      ensures Ran(disk, state, io, r) == Carry(old(disk), Plan([Save(state)], state, Finished), old(io))
    {
      assert [Save(state)] + [] == [Save(state)];
      CarryCons(disk, Save(state), Plan([], state, Finished), io);
      r := SaveState();
    }

    method Prepared(h: Host) returns (r: Ended)
      requires state.tx.Some?
      modifies this
      ensures Ran(disk, state, io, r) == Carry(old(disk), PreparedPlan(old(disk), old(state), h), old(io))
    {
      var tx := state.tx.value;
      if h.probe.None? || h.boot.None? {
        return Fault(Failure);
      }
      if tx.boot != h.boot.value {
        if disk.active != tx.from.digest {
          return Fault(Recovery);
        }
        state := state.(phase := Phase.RolledBack);
        r := SaveOnly();
        return;
      }
      var probe := h.probe.value;
      var done := Completed(probe, tx.bridgeExit);
      if done && probe.result == "success" && probe.activeState == "active" {
        if h.stop.None? {
          return Fault(Failure);
        }
        state := state.(tx := Some(tx.(bridgeExit := h.stop.value.exit)));
        if h.clock.None? {
          return Fault(Failure);
        }
        state := state.(tx := Some(state.tx.value.(deadline := h.clock.value.first + BRIDGE_TIMEOUT_MS)));
        state := state.(phase := Phase.Stopping);
        r := SaveThenMark(StopMark);
      } else if !done && h.clock.None? {
        return Fault(Failure);
      } else if done || h.clock.value.first > tx.deadline {
        state := state.(failed := state.failed + [tx.to.digest]);
        state := state.(phase := Phase.RolledBack);
        r := SaveOnly();
      } else if PreflightMark !in disk.marks && probe.activeState !in {"activating", "deactivating"} {
        r := MarkOnly(PreflightMark);
      } else {
        r := Fine;
      }
    }

    method Stopping(h: Host, p: Policy) returns (r: Ended)
      requires state.tx.Some?
      modifies this
      ensures Ran(disk, state, io, r) == Carry(old(disk), StoppingPlan(old(disk), old(state), h, p), old(io))
    {
      var tx := state.tx.value;
      if h.boot.None? {
        return Fault(Failure);
      }
      if tx.boot != h.boot.value {
        if disk.active != tx.from.digest {
          return Fault(Recovery);
        }
        state := state.(phase := Phase.RolledBack);
        r := SaveOnly();
        return;
      }
      if h.agent.None? || h.stop.None? {
        return Fault(Failure);
      }
      var bridge := h.stop.value;
      var quiet := false;
      if StopAcknowledged(disk, tx, bridge) {
        var stopped := Stopped(h.agent.value, h.cgroup);
        if stopped.Err? {
          return Fault(stopped.error);
        }
        quiet := stopped.value;
      }
      if h.clock.None? {
        return Fault(Failure);
      }
      if quiet {
        state := state.(tx := Some(tx.(deadline := h.clock.value.first + p.trialSeconds * 1000)));
        state := state.(phase := Phase.Trial);
        ghost var tail := Plan([Step(PointActive(tx.to.digest), state), Step(PutMark(RestartMark), state)], state, Finished);
        assert [Save(state)] + tail.items
            == [Save(state), Step(PointActive(tx.to.digest), state), Step(PutMark(RestartMark), state)];
        CarryCons(disk, Save(state), tail, io);
        r := SaveState();
        if !r.Fine? {
          return;
        }
        r := PointThenMark(tx.to.digest);
      } else if h.clock.value.first > tx.deadline {
        return Fault(Recovery);
      } else if bridge.activeState !in {"active", "activating", "deactivating"} && StopMark !in disk.marks {
        r := MarkOnly(StopMark);
      } else {
        r := Fine;
      }
    }

    method PointThenMark(digest: Digest) returns (r: Ended)
      modifies `disk, `io
      ensures Ran(disk, state, io, r)
              == Carry(old(disk), Plan([Step(PointActive(digest), state), Step(PutMark(RestartMark), state)], state, Finished), old(io))
    {
      ghost var last := Plan([Step(PutMark(RestartMark), state)], state, Finished);
      assert [Step(PointActive(digest), state)] + last.items == [Step(PointActive(digest), state), Step(PutMark(RestartMark), state)];
      CarryCons(disk, Step(PointActive(digest), state), last, io);
      r := Put(PointActive(digest));
      if !r.Fine? {
        return;
      }
      r := MarkOnly(RestartMark);
    }

    /** The part of `rollback` after its intent is durable; `look` is the disk the command read. */
    method Restore(h: Host, ghost look: Disk) returns (r: Ended)
      requires state.tx.Some? && look.active == disk.active && look.objects == disk.objects
      modifies this
      ensures Ran(disk, state, io, r) == Carry(old(disk), RestorePlan(look, old(state), h), old(io))
    {
      var tx := state.tx.value;
      if tx.from.digest !in disk.objects {
        return Fault(Recovery);
      }
      if h.restore.None? {
        return Fault(Failure);
      }
      if Health(disk.active, h.restore.value, tx.from.digest).Some? {
        state := state.(phase := Phase.RolledBack);
        r := SaveOnly();
        return;
      }
      if tx.recoveryRequested && h.boot.None? {
        return Fault(Failure);
      }
      if !tx.recoveryRequested || tx.boot != h.boot.value {
        r := AskRestore(h, RestorePlan(look, state, h));
      } else if h.clock.None? {
        return Fault(Failure);
      } else if h.clock.value.fourth > tx.deadline {
        return Fault(Recovery);
      } else {
        r := Fine;
      }
    }

    /** Pointer and restart first; the journal then remembers having asked, in this boot. */
    method AskRestore(h: Host, ghost plan: Plan) returns (r: Ended)
      requires state.tx.Some?
      requires var from := state.tx.value.from.digest;
               var ask := [Step(PointActive(from), state), Step(PutMark(RestartMark), state)];
               var asked := state.tx.value.(recoveryRequested := true,
                                            boot := if h.boot.Some? then h.boot.value else state.tx.value.boot);
               plan == if h.boot.None? || h.clock.None? then Plan(ask, state.(tx := Some(asked)), End.Failed(Failure))
                       else
                         var requested := state.(tx := Some(asked.(deadline := h.clock.value.fourth + ROLLBACK_TIMEOUT_MS)));
                         Plan(ask + [Save(requested)], requested, Finished)
      modifies this
      ensures Ran(disk, state, io, r) == Carry(old(disk), plan, old(io))
    {
      ghost var ask := Plan([Step(PointActive(state.tx.value.from.digest), state), Step(PutMark(RestartMark), state)], state, Finished);
      ghost var rest := plan.(items := if plan.end.Finished? then [Save(plan.mem)] else []);
      assert plan == Before(ask.items, rest) by {
        assert ask.items + [] == ask.items;
      }
      CarryThen(disk, ask, rest, io);
      r := PointThenMark(state.tx.value.from.digest);
      if !r.Fine? {
        return;
      }
      state := state.(tx := Some(state.tx.value.(recoveryRequested := true)));
      if h.boot.None? {
        return Fault(Failure);
      }
      state := state.(tx := Some(state.tx.value.(boot := h.boot.value)));
      if h.clock.None? {
        return Fault(Failure);
      }
      state := state.(tx := Some(state.tx.value.(deadline := h.clock.value.fourth + ROLLBACK_TIMEOUT_MS)));
      assert state == plan.mem;
      r := SaveOnly();
    }

    method Rollback(h: Host, ghost look: Disk) returns (r: Ended)
      requires state.tx.Some? && look.active == disk.active && look.objects == disk.objects
      modifies this
      ensures Ran(disk, state, io, r) == Carry(old(disk), RollbackPlan(look, old(state), h), old(io))
    {
      hide RestorePlan;
      var tx := state.tx.value;
      if tx.from.sequence < state.hardFloor {
        return Fault(Recovery);
      }
      if state.phase == Phase.RollbackIntent {
        r := Restore(h, look);
      } else if h.clock.None? {
        state := state.(tx := Some(tx.(rollbackConsumed := true)));
        return Fault(Failure);
      } else {
        hide Carry;
        r := Intend(h, look);
      }
    }

    /** The intent is journaled before anything is restored. */
    method Intend(h: Host, ghost look: Disk) returns (r: Ended)
      requires state.tx.Some? && h.clock.Some? && look.active == disk.active && look.objects == disk.objects
      modifies this
      ensures var intent := Intent(old(state), h.clock.value.third);
              Ran(disk, state, io, r) == Carry(old(disk), Before([Save(intent)], RestorePlan(look, intent, h)), old(io))
    {
      hide RestorePlan;
      var tx := state.tx.value;
      state := state.(tx := Some(tx.(rollbackConsumed := true)));
      state := state.(tx := Some(state.tx.value.(deadline := h.clock.value.third + ROLLBACK_TIMEOUT_MS)));
      state := state.(failed := state.failed + [tx.to.digest]);
      state := state.(phase := Phase.RollbackIntent);
      assert state == Intent(old(state), h.clock.value.third);
      CarryCons(disk, Save(state), RestorePlan(look, state, h), io);
      r := SaveState();
      if r.Fine? {
        hide Carry;
        r := Restore(h, look);
      }
    }

    method Trial(h: Host, p: Policy) returns (r: Ended)
      requires state.tx.Some? && state.phase == Phase.Trial
      modifies this
      ensures Ran(disk, state, io, r) == Carry(old(disk), TrialPlan(old(disk), old(state), h, p), old(io))
    {
      ghost var look := disk;
      var tx := state.tx.value;
      hide RollbackPlan, Carry;
      if h.boot.None? {
        return Fault(Failure);
      }
      if tx.boot != h.boot.value {
        r := Rollback(h, look);
        return;
      }
      if h.trial.None? {
        return Fault(Failure);
      }
      var evidence := Health(disk.active, h.trial.value, tx.to.digest);
      if evidence.Some? && evidence.value.invocation == tx.oldInvocation {
        evidence := None;
      }
      assert evidence == TrialEvidence(look.active, tx, h.trial.value);
      hide TrialEvidence;
      TrialEnds(look, state, h, p);
      if evidence.Some? {
        r := Believe(evidence.value, h, p, look);
      } else {
        r := Doubt(h, look);
      }
    }

    /** Healthy evidence of a new invocation: a streak begins, earns the commit, or goes on. */
    method Believe(e: Evidence, h: Host, p: Policy, ghost look: Disk) returns (r: Ended)
      requires state.tx.Some? && state.phase == Phase.Trial && look == disk
      modifies this
      ensures var j := old(state);
              Ran(disk, state, io, r) ==
              if h.clock.None? then Ran(old(disk), UntimedJudged(j, e), old(io), Fault(Failure))
              else
                var v := Judge(j.tx.value, Some(e), h.clock.value.first, p);
                var judged := Judged(j, v);
                if v.Commit? then Carry(old(disk), Plan([Save(judged)], judged, Finished), old(io))
                else if v.Keep? then Carry(old(disk), Deadline(look, judged, h), old(io))
                else Carry(old(disk), Before([Save(judged)], Deadline(look, judged, h)), old(io))
    {
      hide RollbackPlan, Carry, Deadline;
      var tx := state.tx.value;
      if tx.stableInvocation != Some(e.invocation) {
        state := state.(tx := Some(tx.(stableInvocation := Some(e.invocation))));
        if h.clock.None? {
          return Fault(Failure);
        }
        state := state.(tx := Some(state.tx.value.(stableSince := Some(h.clock.value.first))));
        state := state.(tx := Some(state.tx.value.(stableSample := Some(e.collectedAt))));
        r := SaveThenDeadline(h, look);
      } else if h.clock.Some? && tx.stableSince.Some? && tx.stableSample.Some?
                && Elapsed(h.clock.value.first, tx.stableSince.value, p.stabilitySeconds * 1000)
                && Elapsed(e.collectedAt, tx.stableSample.value, p.stabilitySeconds * 1000) {
        state := state.(installed := tx.to);
        state := state.(phase := Phase.Committed);
        r := SaveOnly();
      } else {
        r := CheckDeadline(h, look);
        assert h.clock.Some? ==> Judge(tx, Some(e), h.clock.value.first, p).Keep?;
      }
    }

    /** Missing or disbelieved evidence ends the streak. */
    method Doubt(h: Host, ghost look: Disk) returns (r: Ended)
      requires state.tx.Some? && state.phase == Phase.Trial && look == disk
      modifies this
      ensures var j := old(state);
              var kept := j.tx.value.stableSince.None?;
              var judged := if kept then j
                            else j.(tx := Some(j.tx.value.(stableSince := None, stableSample := None, stableInvocation := None)));
              Ran(disk, state, io, r)
              == Carry(old(disk), if kept then Deadline(look, j, h) else Before([Save(judged)], Deadline(look, judged, h)), old(io))
    {
      hide RollbackPlan, Carry, Deadline;
      var tx := state.tx.value;
      if tx.stableSince.Some? {
        state := state.(tx := Some(tx.(stableSince := None)));
        state := state.(tx := Some(state.tx.value.(stableInvocation := None)));
        state := state.(tx := Some(state.tx.value.(stableSample := None)));
        r := SaveThenDeadline(h, look);
      } else {
        r := CheckDeadline(h, look);
      }
    }

    method CheckDeadline(h: Host, ghost look: Disk) returns (r: Ended)
      requires state.tx.Some? && state.phase == Phase.Trial && look.active == disk.active && look.objects == disk.objects
      modifies this
      ensures Ran(disk, state, io, r) == Carry(old(disk), Deadline(look, old(state), h), old(io))
      ensures h.clock.None? ==> disk == old(disk) && state == old(state) && io == old(io) && r == Fault(Failure)
    {
      hide RollbackPlan;
      if h.clock.None? {
        return Fault(Failure);
      }
      if h.clock.value.second > state.tx.value.deadline {
        r := Rollback(h, look);
      } else {
        r := Fine;
      }
    }

    /** The tail of `trial` once its streak changed: the save, then the deadline. */
    method SaveThenDeadline(h: Host, ghost look: Disk) returns (r: Ended)
      requires state.tx.Some? && state.phase == Phase.Trial && look == disk
      modifies this
      ensures Ran(disk, state, io, r)
              == Carry(old(disk), Before([Save(old(state))], Deadline(look, old(state), h)), old(io))
    {
      hide RollbackPlan, Deadline;
      CarryCons(disk, Save(state), Deadline(look, state, h), io);
      r := SaveState();
      if !r.Fine? {
        return;
      }
      hide Carry;
      r := CheckDeadline(h, look);
    }

    method Reconcile(h: Host, p: Policy) returns (r: Ended)
      modifies this
      ensures Ran(disk, state, io, r) == Carry(old(disk), ReconcilePlan(old(disk), old(state), h, p), old(io))
    {
      if state.phase == Phase.ManualRecovery {
        return Fault(Recovery);
      }
      if h.activeFault.Some? {
        return Fault(h.activeFault.value);
      }
      if Terminal(state.phase) {
        r := if disk.active != state.installed.digest then Fault(Recovery) else Fine;
        return;
      }
      if state.tx.None? || (disk.active != state.tx.value.from.digest && disk.active != state.tx.value.to.digest) {
        return Fault(Recovery);
      }
      if state.phase == Phase.Prepared {
        r := Prepared(h);
      } else if state.phase == Phase.Stopping {
        r := Stopping(h, p);
      } else if state.phase == Phase.Trial {
        r := Trial(h, p);
      } else {
        r := Rollback(h, disk);
      }
    }

    // ---- fetching -------------------------------------------------------------------------------------

    method SaveLeaving(ghost d: Disk, ghost j: Journal) returns (r: Ended)
      requires d == disk && j == state
      modifies `disk, `io
      ensures Ran(disk, state, io, r) == Carry(d, Plan([Leave(SaveJournal(j), j)], j, Finished), old(io))
    {
      assert [Leave(SaveJournal(j), j)] + [] == [Leave(SaveJournal(j), j)];
      CarryCons(d, Leave(SaveJournal(j), j), Plan([], j, Finished), io);
      r := SaveState();
    }

    /** `capture_root`; `files` is the working directory. */
    method CaptureRoot(initial: Root, files: Inventory) returns (r: Ended)
      modifies this
      ensures Ran(disk, state, io, r) == Carry(old(disk), CapturePlan(old(state), initial, files), old(io))
    {
      if RootJson !in files {
        return Fine;
      }
      if !files[RootJson].RootDoc? {
        return Fault(Failure);
      }
      var root := files[RootJson].root;
      hide Continues, Authorises;
      if !SelfSigned(root) {
        return Fault(Recovery);
      }
      if root.version in state.roots {
        return Fine;
      }
      if !Continues(state.roots, initial, root) {
        return Fault(Recovery);
      }
      if |state.roots| >= ROOT_QUOTA {
        return Fault(Recovery);
      }
      ghost var recorded := state.(roots := state.roots[root.version := root]);
      ghost var last := Plan([Leave(SaveJournal(recorded), recorded)], recorded, Finished);
      assert [Leave(PutRoot(root), state)] + last.items == [Leave(PutRoot(root), state), Leave(SaveJournal(recorded), recorded)];
      CarryCons(disk, Leave(PutRoot(root), state), last, io);
      r := Put(PutRoot(root));
      if !r.Fine? {
        return;
      }
      state := state.(roots := state.roots[root.version := root]);
      r := SaveLeaving(disk, state);
    }

    /** `publish_cache`: a changed inventory goes to a new generation before the journal names it. */
    method PublishCache(files: Inventory, nonce: string) returns (r: Ended)
      modifies this
      ensures Ran(disk, state, io, r) == Carry(old(disk), PublishPlan(old(disk), old(state), files, nonce), old(io))
    {
      if RootJson !in files {
        return Fault(Recovery);
      }
      if state.cache.Some? && files == state.inventory {
        r := SaveLeaving(disk, state);
        return;
      }
      if |disk.generations| >= GENERATION_QUOTA {
        return Fault(PolicyRejected);
      }
      if nonce in disk.generations {
        return Fault(Failure);
      }
      ghost var published := state.(cache := Some(nonce), inventory := files);
      ghost var first := Plan([Leave(MakeGeneration(nonce), state), Leave(FillGeneration(nonce, files), state)], state, Finished);
      ghost var last := Plan([Leave(SaveJournal(published), published)], published, Finished);
      assert first.items + last.items == [Leave(MakeGeneration(nonce), state), Leave(FillGeneration(nonce, files), state),
                                          Leave(SaveJournal(published), published)];
      CarryThen(disk, first, last, io);
      r := NewGeneration(nonce, files);
      if !r.Fine? {
        return;
      }
      state := state.(inventory := files);
      state := state.(cache := Some(nonce));
      r := SaveLeaving(disk, state);
    }

    method NewGeneration(id: string, files: Inventory) returns (r: Ended)
      modifies `disk, `io
      ensures Ran(disk, state, io, r)
              == Carry(old(disk), Plan([Leave(MakeGeneration(id), state), Leave(FillGeneration(id, files), state)], state, Finished), old(io))
    {
      ghost var last := Plan([Leave(FillGeneration(id, files), state)], state, Finished);
      assert [Leave(MakeGeneration(id), state)] + last.items
          == [Leave(MakeGeneration(id), state), Leave(FillGeneration(id, files), state)];
      CarryCons(disk, Leave(MakeGeneration(id), state), last, io);
      r := Put(MakeGeneration(id));
      if !r.Fine? {
        return;
      }
      assert [Leave(FillGeneration(id, files), state)] + [] == [Leave(FillGeneration(id, files), state)];
      CarryCons(disk, Leave(FillGeneration(id, files), state), Plan([], state, Finished), io);
      r := Put(FillGeneration(id, files));
    }

    /** What `before` and `finish` do once the root is captured. */
    method Refresh(files: Inventory, nonce: string, publishing: bool) returns (r: Ended)
      modifies this
      ensures Ran(disk, state, io, r) == Carry(old(disk), Refreshed(old(disk), old(state), files, nonce, publishing), old(io))
    {
      r := Fine;
      if publishing {
        r := PublishCache(files, nonce);
      }
    }

    /** The request goes ahead or fails; either way the load goes on as `next` does, if there is power. */
    ghost predicate GoesOn(d: Disk, j: Journal, luck: seq<Io>, l: Load, r: Ended, next: Load)
      reads this
    {
      var whole := Carry(d, LoadPlan(d, j, l).plan, luck);
      if r.PowerOff? then whole == Ran(disk, state, io, r)
      else
        && whole == Carry(disk, LoadPlan(disk, state, next).plan, io)
        && |next.visits| <= |l.visits| && (l.broken ==> next.broken)
        && (!next.broken ==> LoadPlan(disk, state, next).files == LoadPlan(d, j, l).files)
    }

    /** One request of the client: `before`, the answer, and what the client makes of either. */
    method Request(l: Load) returns (r: Ended, next: Load)
      requires l.visits != []
      modifies this
      ensures GoesOn(old(disk), old(state), old(io), l, r, next)
      ensures !r.PowerOff? ==> |next.visits| < |l.visits|
    {
      ghost var d, j, luck := disk, state, io;
      ghost var captured := CapturePlan(j, l.initial, l.client.files);
      LoadParts(d, j, l);
      CapturePlain(j, l.initial, l.client.files);
      CarryEnds(d, captured, luck);
      next := Aborted(l);
      r := CaptureRoot(l.initial, l.client.files);
      hide CapturePlan;
      var begun := Begun(l);
      ghost var d1 := Written(d, captured.items);
      ghost var refreshed := Refreshed(d1, captured.mem, l.client.files, l.visits[0].nonce, begun.publishing);
      ghost var rest := LoadPlan(Written(d1, refreshed.items), refreshed.mem, NextLoad(begun, refreshed));
      ghost var second := Before(Guarded(d1, refreshed.items, Aborted(begun)), rest.plan);
      GuardedCarry(d, captured, next, second, luck);
      hide LoadPlan, Carry, Guarded;
      if !r.Fine? {
        return;
      }
      RefreshPlain(disk, state, l.client.files, l.visits[0].nonce, begun.publishing);
      CarryEnds(disk, refreshed, io);
      GuardedCarry(disk, refreshed, Aborted(begun), rest.plan, io);
      r := Refresh(l.client.files, l.visits[0].nonce, begun.publishing);
      next := if r.Fine? then Answered(begun, state.roots) else Aborted(begun);
    }

    /** `stage`: a working generation, filled from the cache. */
    method Stage(staging: string) returns (r: Ended)
      modifies `disk, `io
      ensures Ran(disk, state, io, r) == Carry(old(disk), StagePlan(old(disk), state, staging), old(io))
    {
      if |disk.generations| >= GENERATION_QUOTA {
        return Fault(PolicyRejected);
      }
      if staging in disk.generations {
        return Fault(Failure);
      }
      r := NewGeneration(staging, if state.cache.Some? then state.inventory else map[]);
    }

    /** Every request the client makes, until none is left or the machine is off. */
    method Requests(first: Load) returns (r: Ended, l: Load)
      modifies this
      ensures GoesOn(old(disk), old(state), old(io), first, r, l)
      ensures !r.PowerOff? ==> l.visits == []
    {
      hide LoadPlan, Carry, Answered, Aborted, Begun;
      l := first;
      r := Fine;
      ghost var d, j, luck := disk, state, io;
      while l.visits != []
        invariant !r.PowerOff? && GoesOn(d, j, luck, first, r, l)
        decreases |l.visits|
      {
        r, l := Request(l);
        if r.PowerOff? {
          return;
        }
      }
    }

    /** The repository load: every request, then `finish`, whose own error comes first. */
    method Load(p: Policy, f: Fetch) returns (r: Ended, files: Inventory)
      modifies this
      ensures var loading := LoadPlan(old(disk), old(state), Opening(p, old(state), f));
              && Ran(disk, state, io, r) == Carry(old(disk), loading.plan, old(io))
              && (r.Fine? ==> files == loading.files)
    {
      hide Carry, Opening, FinishPlan;
      var l;
      r, l := Requests(Opening(p, state, f));
      files := l.client.files;
      if r.PowerOff? {
        return;
      }
      assert LoadPlan(disk, state, l) == Loading(FinishPlan(disk, state, l), l.client.files);
      hide LoadPlan;
      r := Finish(l);
    }

    method Finish(l: Load) returns (r: Ended)
      modifies this
      ensures Ran(disk, state, io, r) == Carry(old(disk), FinishPlan(old(disk), old(state), l), old(io))
      ensures l.broken ==> !r.Fine?
    {
      ghost var captured := CapturePlan(state, l.initial, l.client.files);
      ghost var d, luck := disk, io;
      ghost var refreshed := Refreshed(Written(d, captured.items), captured.mem, l.client.files, l.finishing, l.publishing);
      ghost var finish := Then(captured, refreshed);
      CapturePlain(state, l.initial, l.client.files);
      CarryEnds(d, captured, luck);
      CarryEnds(d, finish, luck);
      CarryEnds(d, FinishPlan(d, state, l), luck);
      r := CaptureRoot(l.initial, l.client.files);
      hide CapturePlan;
      if captured.end.Finished? {
        CarryThen(d, captured, refreshed, luck);
      }
      hide Carry, Refreshed;
      if r.Fine? {
        r := Refresh(l.client.files, l.finishing, l.publishing);
      }
      if r.Fine? && l.broken {
        r := Fault(Failure);
      }
    }

    /** From the loaded repository to the durable payload: floors first, then the cache, then code. */
    method Adopt(p: Policy, f: Fetch, files: Inventory) returns (r: Ended)
      modifies this
      ensures Ran(disk, state, io, r) == Carry(old(disk), ReleasePlan(p, old(disk), old(state), f, files), old(io))
    {
      if f.repository.Unloadable? {
        return Fault(Failure);
      }
      ghost var d, luck := disk, io;
      ghost var published := PublishPlan(disk, state, files, f.published);
      CarryEnds(d, published, luck);
      if published.end.Finished? {
        CarryThen(d, published, AdoptPlan(p, Written(d, published.items), published.mem, f, files, f.repository.offer), luck);
      }
      hide PublishPlan, AdoptPlan;
      r := PublishCache(files, f.published);
      if !r.Fine? {
        return;
      }
      hide Carry;
      r := AcceptOffer(p, f, files);
    }

    method AcceptOffer(p: Policy, f: Fetch, files: Inventory) returns (r: Ended)
      requires f.repository.Loaded?
      modifies this
      ensures Ran(disk, state, io, r) == Carry(old(disk), AdoptPlan(p, old(disk), old(state), f, files, f.repository.offer), old(io))
    {
      if f.repository.offer.None? {
        return Fault(PolicyRejected);
      }
      var offer := f.repository.offer.value;
      hide ValidRelease;
      if !ValidRelease(p, offer.release) || !ValidDigest(offer.digest) {
        return Fault(PolicyRejected);
      }
      if Downgrades(state, offer) {
        return Fault(PolicyRejected);
      }
      if offer.release.minRollback > state.installed.sequence {
        return Fault(PolicyRejected);
      }
      state := state.(seenSequence := offer.release.sequence);
      state := state.(seenDigest := offer.digest);
      state := state.(hardFloor := Max(Max(state.hardFloor, offer.release.minRollback), p.minimumSequence));
      state := state.(timeHigh := Max(f.acceptedAt, state.timeHigh));
      assert state == Adopted(p, old(state), offer, f.acceptedAt);
      ghost var d, luck := disk, io;
      ghost var committed := PublishPlan(disk, state, files, f.accepted);
      ghost var last := if !f.payload then Stop(committed.mem, PolicyRejected)
                        else Plan([Leave(PutObject(offer.digest), committed.mem)], committed.mem, Finished);
      assert AdoptPlan(p, d, old(state), f, files, f.repository.offer) == Then(committed, last) by {
        hide PublishPlan;
      }
      CarryEnds(d, committed, luck);
      if committed.end.Finished? {
        CarryThen(d, committed, last, luck);
      }
      hide PublishPlan, AdoptPlan;
      r := PublishCache(files, f.accepted);
      if !r.Fine? {
        return;
      }
      if !f.payload {
        return Fault(PolicyRejected);
      }
      assert [Leave(PutObject(offer.digest), state)] + [] == [Leave(PutObject(offer.digest), state)];
      CarryCons(disk, Leave(PutObject(offer.digest), state), Plan([], state, Finished), io);
      r := Put(PutObject(offer.digest));
    }

    method Fetch(p: Policy, f: Fetch) returns (r: Ended)
      modifies this
      ensures Ran(disk, state, io, r) == Carry(old(disk), FetchPlan(p, old(disk), old(state), f), old(io))
    {
      if SaturatingAdd(f.now, TIME_SKEW_SECS) < state.timeHigh {
        return Fault(PolicyRejected);
      }
      ghost var d, luck := disk, io;
      ghost var staged := StagePlan(d, state, f.staging);
      assert staged.mem == state;
      CarryEnds(d, staged, luck);
      if staged.end.Finished? {
        CarryThen(d, staged, DownloadPlan(p, Written(d, staged.items), state, f), luck);
      }
      hide StagePlan, DownloadPlan, Carry;
      r := Stage(f.staging);
      if r.Fine? {
        r := Download(p, f);
      }
    }

    method Download(p: Policy, f: Fetch) returns (r: Ended)
      modifies this
      ensures Ran(disk, state, io, r) == Carry(old(disk), DownloadPlan(p, old(disk), old(state), f), old(io))
    {
      ghost var d, luck := disk, io;
      ghost var loading := LoadPlan(d, state, Opening(p, state, f));
      ghost var release := ReleasePlan(p, Written(d, loading.plan.items), loading.plan.mem, f, loading.files);
      CarryEnds(d, loading.plan, luck);
      if loading.plan.end.Finished? {
        CarryThen(d, loading.plan, release, luck);
      }
      hide LoadPlan, ReleasePlan, Carry;
      var files;
      r, files := Load(p, f);
      if r.Fine? {
        r := Adopt(p, f, files);
      }
    }

    // ---- collection -----------------------------------------------------------------------------------

    /** Stale generations go; the current one stays. */
    method DropGenerations(listing: seq<string>) returns (r: Ended)
      modifies `disk, `io
      ensures Ran(disk, state, io, r) == Carry(old(disk), Plan(GenerationItems(state, listing), state, Finished), old(io))
    {
      r := Fine;
      var i := 0;
      while i < |listing|
        invariant 0 <= i <= |listing| && r.Fine?
        invariant Carry(old(disk), Plan(GenerationItems(state, listing), state, Finished), old(io))
                  == Carry(disk, Plan(GenerationItems(state, listing[i..]), state, Finished), io)
      {
        assert listing[i..][1..] == listing[i + 1..];
        if Some(listing[i]) != state.cache {
          CarryCons(disk, Leave(DropGeneration(listing[i]), state), Plan(GenerationItems(state, listing[i + 1..]), state, Finished), io);
          r := Put(DropGeneration(listing[i]));
          if !r.Fine? {
            return;
          }
        }
        i := i + 1;
      }
    }

    /** Objects no record pins go. */
    method DropObjects(listing: seq<Digest>) returns (r: Ended)
      modifies `disk, `io
      ensures Ran(disk, state, io, r) == Carry(old(disk), Plan(ObjectItems(state, listing), state, Finished), old(io))
    {
      var pins := {state.installed.digest, state.seenDigest};
      if state.tx.Some? {
        pins := pins + {state.tx.value.from.digest, state.tx.value.to.digest};
      }
      assert pins == Pins(state);
      r := Fine;
      var i := 0;
      while i < |listing|
        invariant 0 <= i <= |listing| && r.Fine?
        invariant Carry(old(disk), Plan(ObjectItems(state, listing), state, Finished), old(io))
                  == Carry(disk, Plan(ObjectItems(state, listing[i..]), state, Finished), io)
      {
        assert listing[i..][1..] == listing[i + 1..];
        if listing[i] !in pins {
          CarryCons(disk, Leave(DropObject(listing[i]), state), Plan(ObjectItems(state, listing[i + 1..]), state, Finished), io);
          r := Put(DropObject(listing[i]));
          if !r.Fine? {
            return;
          }
        }
        i := i + 1;
      }
    }

    method Collect(s: Sweep) returns (r: Ended)
      modifies `disk, `io
      ensures Ran(disk, state, io, r) == Carry(old(disk), CollectPlan(state, s), old(io))
    {
      if !Terminal(state.phase) {
        return Fault(Recovery);
      }
      ghost var first := Plan(GenerationItems(state, s.generations), state, Finished);
      CarryThen(disk, first, Plan(ObjectItems(state, s.objects), state, Finished), io);
      CarryEnds(disk, first, io);
      hide Carry, GenerationItems, ObjectItems;
      r := DropGenerations(s.generations);
      if r.Fine? {
        r := DropObjects(s.objects);
      }
    }

    // ---- commands -------------------------------------------------------------------------------------

    /** A command ended as its script says: the same disk, and an error exactly when the script has one. */
    ghost predicate Ends(d: Disk, luck: seq<Io>, script: Script, r: Ended)
      reads this
    {
      var did := Did(d, script.items, luck);
      && disk == did.disk && io == did.io && (r.PowerOff? <==> did.off)
      && (!r.PowerOff? ==> (r.Fine? <==> !script.failed && !did.failed))
    }

    /** `latch_failure`: neither write's error is looked at. */
    method LatchFailure(e: Error) returns (r: Ended)
      modifies this
      ensures var did := Did(old(disk), LatchItems(old(state), e), old(io));
              disk == did.disk && io == did.io && (r.PowerOff? <==> did.off) && !did.failed && (r.PowerOff? || r == Fault(e))
    {
      if Terminal(state.phase) && e != Recovery {
        DidNil(disk, io);
        return Fault(e);
      }
      ghost var latched := Latched(state);
      ghost var second := Item(RequireRecovery, latched, Ignored);
      ghost var first := Item(SaveJournal(latched), latched, Ignored);
      assert LatchItems(state, e) == [first] + [second];
      DidCons(disk, first, [second], io);
      state := state.(phase := Phase.ManualRecovery);
      r := SaveState();
      if r.PowerOff? {
        return;
      }
      assert [second] == [second] + [];
      DidCons(disk, second, [], io);
      r := Put(RequireRecovery);
      if !r.PowerOff? {
        r := Fault(e);
      }
      DidNil(disk, io);
    }

    /** The timer's flag goes once the journal is settled. */
    method TidyUp() returns (r: Ended)
      modifies `disk, `io
      ensures Ends(old(disk), old(io), Script(Tidy(state), false), r)
    {
      DidNil(disk, io);
      r := Fine;
      if Terminal(state.phase) {
        assert Tidy(state) == [Leave(RemovePending, state)] + [];
        DidCons(disk, Leave(RemovePending, state), [], io);
        r := Put(RemovePending);
        DidNil(disk, io);
      }
    }

    /** The end of `dispatch` for the two calls whose errors are latched. */
    method Settle(ended: Ended, ghost d: Disk, ghost plan: Plan, ghost luck: seq<Io>) returns (r: Ended)
      requires AllLatching(plan.items) && Ran(disk, state, io, ended) == Carry(d, plan, luck)
      modifies this
      ensures Ends(d, luck, Settled(plan), r)
    {
      DidSettled(d, plan, luck);
      CarryEnds(d, plan, luck);
      hide Carry, Settled, Did, LatchItems, Tidy;
      if ended.PowerOff? {
        r := ended;
      } else if ended.Fine? {
        r := TidyUp();
      } else {
        r := LatchFailure(ErrorOf(ended));
      }
    }

    method ReconcileCommand(p: Policy, boot: bool, h: Host) returns (r: Ended)
      requires state == disk.journal
      modifies this
      ensures Ends(old(disk), old(io), ReconcileScript(p, old(disk), boot, h), r)
    {
      ghost var d, luck := disk, io;
      hide Loads;
      var gate := IdleGate(p, disk, h.activeFault);
      hide IdleGate;
      if gate.Err? {
        DidNil(disk, io);
        return Fault(gate.error);
      }
      if gate.value.Idle? {
        BootDid(d, boot, state, Tidy(state), luck);
        r := ClearOnBoot(boot);
        hide Carry, Tidy, BootItems;
        if r.Fine? {
          r := TidyUp();
        }
        return;
      }
      if disk.latched {
        DidNil(disk, io);
        return Fault(Recovery);
      }
      r := ProceedCommand(p, boot, h);
    }

    /** Past the gate: markers, the interrupted download, then the phase at hand. */
    method ProceedCommand(p: Policy, boot: bool, h: Host) returns (r: Ended)
      requires state == disk.journal && !disk.latched && IdleGate(p, disk, h.activeFault) == Ok(Proceed)
      modifies this
      ensures Ends(old(disk), old(io), ReconcileScript(p, old(disk), boot, h), r)
    {
      ghost var d, j, luck := disk, state, io;
      ghost var recovered := RecoverDownload(state);
      ghost var saves := if recovered == j then [] else [Leave(SaveJournal(recovered), recovered)];
      ghost var first := BootItems(boot, j) + saves;
      ghost var plan := ReconcilePlan(Written(d, first), recovered, h, p);
      ghost var settled := Settled(plan);
      hide ReconcilePlan, Settled, ReconcileScript, IdleGate, Did, BootItems, RecoverDownload, Carry;
      ProceedParts(p, d, boot, h);
      ReconcileLatching(p, Written(d, first), recovered, h);
      ghost var early := Plan(first, recovered, Finished);
      CarryEnds(d, early, luck);
      FirstLeaves(boot, j);
      DidLeaving(d, early, settled.items, luck);
      BootThenSave(d, boot, j, recovered, saves, luck);
      r := ClearOnBoot(boot);
      if !r.Fine? {
        return;
      }
      r := RepairDownload();
      if !r.Fine? {
        return;
      }
      ghost var t, left := disk, io;
      r := Reconcile(h, p);
      r := Settle(r, t, plan, left);
    }

    method ClearOnBoot(boot: bool) returns (r: Ended)
      modifies `disk, `io
      ensures Ran(disk, state, io, r) == Carry(old(disk), Plan(BootItems(boot, state), state, Finished), old(io))
    {
      r := Fine;
      if boot {
        assert [Leave(ClearMarks, state)] + [] == [Leave(ClearMarks, state)];
        CarryCons(disk, Leave(ClearMarks, state), Plan([], state, Finished), io);
        r := Put(ClearMarks);
      }
    }

    /** `recover_download` */
    method RepairDownload() returns (r: Ended)
      modifies this
      ensures var m := RecoverDownload(old(state));
              var saves := if m == old(state) then [] else [Leave(SaveJournal(m), m)];
              Ran(disk, state, io, r) == Carry(old(disk), Plan(saves, m, Finished), old(io))
    {
      r := Fine;
      if Terminal(state.phase) && StillDownloading(state) {
        var update := state.remote.value;
        state := state.(remote := Some(update.(
          status := update.status.(phase := UpdatePhase.Failed, reason := Some(UpdateFailed)))));
        assert state == RecoverDownload(old(state));
        r := SaveLeaving(disk, state);
      }
    }

    /** `collect`, then `fetch`. */
    method CollectAndFetch(p: Policy, s: Sweep, f: Fetch) returns (r: Ended)
      requires Terminal(state.phase)
      modifies this
      ensures Ran(disk, state, io, r) == Carry(old(disk), FetchedPlan(p, old(disk), old(state), s, f), old(io))
    {
      ghost var collected := CollectPlan(state, s);
      CarryEnds(disk, collected, io);
      CarryThen(disk, collected, FetchPlan(p, Written(disk, collected.items), state, f), io);
      hide FetchPlan, GenerationItems, ObjectItems, Carry;
      r := Collect(s);
      if r.Fine? {
        r := Fetch(p, f);
      }
    }

    method DownloadCommand(p: Policy, s: Sweep, f: Fetch) returns (r: Ended)
      requires state == disk.journal
      modifies this
      ensures Ends(old(disk), old(io), FetchScript(p, old(disk), s, f), r)
    {
      hide FetchedPlan, Did, Carry, Tidy;
      ghost var d, luck := disk, io;
      DidNil(disk, io);
      if disk.latched || !Terminal(state.phase) {
        return Fault(if disk.latched then Recovery else Error.Busy);
      }
      ghost var fetched := FetchedPlan(p, d, state, s, f);
      FetchedLeaves(p, d, state, s, f);
      CarryEnds(d, fetched, luck);
      DidLeaving(d, fetched.(end := Finished), if fetched.end.Finished? then Tidy(fetched.mem) else [], luck);
      assert fetched.items + [] == fetched.items;
      r := CollectAndFetch(p, s, f);
      DidNil(disk, io);
      if r.Fine? {
        r := TidyUp();
      }
    }

    method ApplyCommand(p: Policy, s: Sweep, f: Fetch, h: Host) returns (r: Ended)
      requires state == disk.journal
      modifies this
      ensures Ends(old(disk), old(io), UpgradeScript(p, old(disk), s, f, h), r)
    {
      ghost var d, luck := disk, io;
      DidNil(disk, io);
      if disk.latched || !Terminal(state.phase) {
        return Fault(if disk.latched then Recovery else Error.Busy);
      }
      ghost var fetched := FetchedPlan(p, d, state, s, f);
      ghost var after := AfterFetch(p, Written(d, fetched.items), fetched.mem, h);
      ghost var tail := if fetched.end.Finished? then after.items else [];
      assert UpgradeScript(p, d, s, f, h)
          == Script(fetched.items + tail, fetched.end.Failed? || after.failed) by {
        UpgradeParts(p, d, s, f, h);
      }
      FetchedLeaves(p, d, state, s, f);
      CarryEnds(d, fetched, luck);
      DidLeaving(d, fetched.(end := Finished), tail, luck);
      hide FetchedPlan, Did, Carry, AfterFetch, UpgradeScript;
      r := CollectAndFetch(p, s, f);
      DidNil(disk, io);
      if r.Fine? {
        r := ActOnCandidate(p, h);
      }
    }

    /** Prepare what was fetched, or record that there is nothing newer. */
    method ActOnCandidate(p: Policy, h: Host) returns (r: Ended)
      modifies this
      ensures Ends(old(disk), old(io), AfterFetch(p, old(disk), old(state), h), r)
    {
      ghost var d, j, luck := disk, state, io;
      var candidate := Candidate(state);
      if candidate != state.installed {
        PrepareLatching(p, d, j, h, candidate);
        ghost var plan := PreparePlan(d, j, h, p, candidate);
        hide PreparePlan, Settled, Carry;
        r := Prepare(h, p, candidate);
        r := Settle(r, d, plan, luck);
      } else {
        state := MarkUpToDate(state);
        ghost var save := Leave(SaveJournal(state), state);
        DidCons(d, save, Tidy(state), luck);
        assert AfterFetch(p, d, j, h).items == [save] + Tidy(state);
        hide Tidy, Did, MarkUpToDate;
        r := SaveState();
        if r.Fine? {
          r := TidyUp();
        }
      }
    }

    method ResetCommand(confirmed: bool, now: nat) returns (r: Ended)
      requires state == disk.journal && !disk.latched
      modifies this
      ensures var plan := PlanReset(confirmed, Terminal(old(state).phase), old(disk).latched, old(state).timeHigh, now);
              var lowered := old(state).(timeHigh := now);
              Ends(old(disk), old(io),
                   if plan.Ok? && plan.value.Lowered? then Script([Leave(SaveJournal(lowered), lowered)], false)
                   else Script([], plan.Err?), r)
    {
      DidNil(disk, io);
      var plan := PlanReset(confirmed, Terminal(state.phase), disk.latched, state.timeHigh, now);
      if plan.Err? {
        return Fault(plan.error);
      }
      r := Fine;
      if plan.value.Lowered? {
        state := state.(timeHigh := now);
        ghost var save := Leave(SaveJournal(state), state);
        assert [save] == [save] + [];
        DidCons(disk, save, [], io);
        r := SaveState();
        DidNil(disk, io);
      }
    }

    /** A disk that does not load raises the recovery flag and nothing else. */
    method Refuse() returns (r: Ended)
      modifies `disk, `io
      ensures Ends(old(disk), old(io), Script([Item(RequireRecovery, old(disk).journal, Ignored)], true), r)
    {
      ghost var item := Item(RequireRecovery, disk.journal, Ignored);
      assert [item] == [item] + [];
      DidCons(disk, item, [], io);
      r := Put(RequireRecovery);
      if !r.PowerOff? {
        r := Fault(Failure);
      }
      DidNil(disk, io);
    }

    /** `dispatch`, for every command that takes the lock itself. */
    method Dispatched(p: Policy, c: Command) returns (r: Ended)
      requires !c.Remote?
      modifies this
      ensures Ends(old(disk), old(io), Dispatch(p, old(disk), c), r)
    {
      hide Loads, ReconcileScript, FetchScript, UpgradeScript, Did;
      DidNil(disk, io);
      if !p.enabled && (c.Fetching? || c.Upgrade?) {
        return Fault(PolicyRejected);
      }
      if !Loads(p, disk) {
        r := Refuse();
        return;
      }
      state := disk.journal;
      match c {
        case Reconcile(boot, h) => r := ReconcileCommand(p, boot, h);
        case ShowStatus => r := TidyUp();
        case ResetTimeFloor(confirmed, now) =>
          if disk.latched {
            return Fault(Recovery);
          }
          r := ResetCommand(confirmed, now);
        case Fetching(s, f) => r := DownloadCommand(p, s, f);
        case Upgrade(s, f, h) => r := ApplyCommand(p, s, f, h);
      }
    }

    // ---- the remote command -----------------------------------------------------------------------------

    /** `remote::run` up to the durable acceptance. */
    method AcceptRequest(p: Policy, request: Request, now: nat) returns (r: Ended)
      modifies this
      ensures Ends(old(disk), old(io), AcceptScript(p, old(disk), request, now), r)
    {
      hide Loads, Accept;
      DidNil(disk, io);
      if !p.enabled {
        return Fault(PolicyRejected);
      }
      if !Loads(p, disk) {
        r := Refuse();
        return;
      }
      state := disk.journal;
      if disk.latched {
        return Fault(Recovery);
      }
      var accepted := Accept(p, state, request, now);
      if accepted.Err? {
        return Fault(accepted.error);
      }
      state := accepted.value;
      ghost var create, save := Leave(CreatePending, state), Leave(SaveJournal(state), state);
      assert [create, save] == [create] + ([save] + []);
      DidCons(disk, create, [save] + [], io);
      hide Did;
      r := Put(CreatePending);
      if !r.Fine? {
        return;
      }
      DidCons(disk, save, [], io);
      r := SaveState();
      DidNil(disk, io);
    }

    /** The last part of `remote::run`: how the apply ended goes into the journal. */
    method Report(p: Policy, failed: bool) returns (r: Ended)
      modifies this
      ensures Ends(old(disk), old(io), ReportScript(p, old(disk), failed), r)
    {
      hide Loads;
      DidNil(disk, io);
      if !Loads(p, disk) {
        return Fault(Failure);
      }
      state := disk.journal;
      if state.remote.Some? {
        var update := state.remote.value;
        if failed {
          state := state.(remote := Some(update.(status := update.status.(phase := UpdatePhase.Failed, reason := Some(UpdateFailed)))));
        } else if update.target.None? {
          state := state.(remote := Some(update.(status := update.status.(phase := UpToDate))));
        }
      }
      assert state == Reported(disk.journal, failed);
      ghost var save := Leave(SaveJournal(state), state);
      assert [save] == [save] + [];
      DidCons(disk, save, [], io);
      hide Did;
      r := SaveState();
      DidNil(disk, io);
      if r.Fine? && failed {
        r := Fault(Failure);
      }
    }

    /** A whole command: exactly the durable writes the model attributes to it, in their order. */
    method Perform(p: Policy, c: Command) returns (r: Ended)
      modifies this
      ensures disk == ApplyAll(old(disk), Performed(p, old(disk), c, old(io)))
    {
      ghost var d, luck := disk, io;
      if !c.Remote? {
        hide Dispatch;
        r := Dispatched(p, c);
        return;
      }
      hide AcceptScript, ReportScript, Dispatch;
      r := AcceptRequest(p, c.request, c.now);
      ghost var accepted := Execute(AcceptScript(p, d, c.request, c.now).items, luck);
      if !r.Fine? {
        return;
      }
      ApplyAllConcat(d, accepted.writes, Applied(p, disk, c, io));
      hide Execute;
      r := ApplyAndReport(p, c);
    }

    method ApplyAndReport(p: Policy, c: Command) returns (r: Ended)
      requires c.Remote?
      modifies this
      ensures disk == ApplyAll(old(disk), Applied(p, old(disk), c, old(io)))
    {
      ghost var d, luck := disk, io;
      hide ReportScript, Dispatch, Execute;
      ghost var applying := Dispatch(p, d, Upgrade(c.sweep, c.fetch, c.host));
      ghost var applied := Execute(applying.items, luck);
      r := Dispatched(p, Upgrade(c.sweep, c.fetch, c.host));
      if r.PowerOff? {
        return;
      }
      var failed := !r.Fine?;
      ghost var report := ReportScript(p, disk, failed);
      ApplyAllConcat(d, applied.writes, Execute(report.items, io).writes);
      r := Report(p, failed);
    }
  }

  // ---- what the scripts are made of ----------------------------------------------------------------------

  lemma BootDid(d: Disk, boot: bool, j: Journal, tail: seq<Item>, luck: seq<Io>)
    ensures var r := Carry(d, Plan(BootItems(boot, j), j, Finished), luck);
            Did(d, BootItems(boot, j) + tail, luck)
            == match r.end
               case PowerOff => Machines.Result(r.disk, [], true, false)
               case Fine => Did(r.disk, tail, r.io)
               case _ => Machines.Result(r.disk, r.io, false, true)
    ensures Carry(d, Plan(BootItems(boot, j), j, Finished), luck).end.PowerOff? ==>
              Carry(d, Plan(BootItems(boot, j), j, Finished), luck).io == []
  {
    DidLeaving(d, Plan(BootItems(boot, j), j, Finished), tail, luck);
    CarryEnds(d, Plan(BootItems(boot, j), j, Finished), luck);
  }

  lemma ProceedParts(p: Policy, d: Disk, boot: bool, h: Host)
    requires IdleGate(p, d, h.activeFault) == Ok(Proceed) && !d.latched
    ensures var m := RecoverDownload(d.journal);
            var first := BootItems(boot, d.journal) + (if m == d.journal then [] else [Leave(SaveJournal(m), m)]);
            ReconcileScript(p, d, boot, h) == Prefix(first, Settled(ReconcilePlan(Written(d, first), m, h, p)))
  {
    hide ReconcilePlan, Settled, RecoverDownload, BootItems, IdleGate;
  }

  lemma FirstLeaves(boot: bool, j: Journal)
    ensures var m := RecoverDownload(j);
            var items := BootItems(boot, j) + (if m == j then [] else [Leave(SaveJournal(m), m)]);
            AllLeaving(items) && AllPlain(items)
  {
    hide RecoverDownload;
  }

  lemma BootThenSave(d: Disk, boot: bool, j: Journal, m: Journal, saves: seq<Item>, luck: seq<Io>)
    ensures var r := Carry(d, Plan(BootItems(boot, j), j, Finished), luck);
            var whole := Carry(d, Plan(BootItems(boot, j) + saves, m, Finished), luck);
            whole == if r.end.Fine? then Carry(r.disk, Plan(saves, m, Finished), r.io) else r
    ensures var whole := Carry(d, Plan(BootItems(boot, j) + saves, m, Finished), luck);
            whole.end.PowerOff? ==> whole.io == []
  {
    CarryThen(d, Plan(BootItems(boot, j), j, Finished), Plan(saves, m, Finished), luck);
    CarryEnds(d, Plan(BootItems(boot, j) + saves, m, Finished), luck);
  }

  lemma RollbackLatching(d: Disk, j: Journal, h: Host)
    requires j.tx.Some?
    ensures AllLatching(RollbackPlan(d, j, h).items)
  {
    hide Health;
  }

  lemma ReconcileLatching(p: Policy, d: Disk, j: Journal, h: Host)
    ensures AllLatching(ReconcilePlan(d, j, h, p).items)
  {
    hide RollbackPlan, TrialPlan, Stopped;
    if j.tx.Some? {
      RollbackLatching(d, j, h);
      if j.phase == Phase.Trial {
        TrialLatching(p, d, j, h);
      }
    }
  }

  lemma TrialLatching(p: Policy, d: Disk, j: Journal, h: Host)
    requires j.tx.Some? && j.phase == Phase.Trial
    ensures AllLatching(TrialPlan(d, j, h, p).items)
  {
    hide RollbackPlan, TrialEvidence;
    RollbackLatching(d, j, h);
    if h.clock.Some? && h.trial.Some? {
      RollbackLatching(d, Judged(j, Judge(j.tx.value, TrialEvidence(d.active, j.tx.value, h.trial.value), h.clock.value.first, p)), h);
    }
  }

  lemma PrepareLatching(p: Policy, d: Disk, j: Journal, h: Host, to: Artifact)
    ensures AllLatching(PreparePlan(d, j, h, p, to).items)
  {
  }

  function AfterFetch(p: Policy, d: Disk, m: Journal, h: Host): Script {
    var candidate := Candidate(m);
    if candidate != m.installed then Settled(PreparePlan(d, m, h, p, candidate))
    else
      var current := MarkUpToDate(m);
      Script([Leave(SaveJournal(current), current)] + Tidy(current), false)
  }

  lemma UpgradeParts(p: Policy, d: Disk, s: Sweep, f: Fetch, h: Host)
    requires !d.latched && Terminal(d.journal.phase)
    ensures var fetched := FetchedPlan(p, d, d.journal, s, f);
            var after := AfterFetch(p, Written(d, fetched.items), fetched.mem, h);
            UpgradeScript(p, d, s, f, h)
            == if fetched.end.Failed? then Script(fetched.items, true)
               else Script(fetched.items + after.items, after.failed)
  {
    var fetched := FetchedPlan(p, d, d.journal, s, f);
    var current := MarkUpToDate(fetched.mem);
    hide FetchedPlan, PreparePlan, Settled, MarkUpToDate, Written, Tidy;
    assert fetched.items + [Leave(SaveJournal(current), current)] + Tidy(current)
        == fetched.items + ([Leave(SaveJournal(current), current)] + Tidy(current));
  }

  // Every write of a collection and a fetch leaves the command when it fails.

  lemma {:induction false} GenerationsLeave(j: Journal, listing: seq<string>)
    ensures AllLeaving(GenerationItems(j, listing))
    decreases |listing|
  {
    if listing != [] {
      GenerationsLeave(j, listing[1..]);
    }
  }

  lemma {:induction false} ObjectsLeave(j: Journal, listing: seq<Digest>)
    ensures AllLeaving(ObjectItems(j, listing))
    decreases |listing|
  {
    if listing != [] {
      ObjectsLeave(j, listing[1..]);
    }
  }

  lemma {:induction false} GuardedLeave(d: Disk, items: seq<Item>, l: Load)
    ensures AllLeaving(Guarded(d, items, l))
    decreases |l.visits|, 2, |items|
  {
    hide LoadPlan;
    if items != [] {
      var next := Apply(d, items[0].write);
      LoadLeaves(d, items[0].mem, l);
      LoadLeaves(next, items[0].mem, l);
      GuardedLeave(next, items[1..], l);
    }
  }

  lemma {:induction false} LoadLeaves(d: Disk, j: Journal, l: Load)
    ensures AllLeaving(LoadPlan(d, j, l).plan.items)
    decreases |l.visits|, 1, 0
  {
    hide CapturePlan, Refreshed, Guarded, Written;
    var captured := CapturePlan(j, l.initial, l.client.files);
    var d1 := Written(d, captured.items);
    CapturePlain(j, l.initial, l.client.files);
    if l.visits == [] {
      RefreshPlain(d1, captured.mem, l.client.files, l.finishing, l.publishing);
    } else {
      var begun := Begun(l);
      var refreshed := Refreshed(d1, captured.mem, l.client.files, l.visits[0].nonce, begun.publishing);
      LoadParts(d, j, l);
      LoadLeaves(d, j, Aborted(l));
      LoadLeaves(Written(d1, refreshed.items), refreshed.mem, NextLoad(begun, refreshed));
      hide LoadPlan;
      GuardedLeave(d, captured.items, Aborted(l));
      GuardedLeave(d1, refreshed.items, Aborted(begun));
    }
  }

  lemma FetchLeaves(p: Policy, d: Disk, j: Journal, f: Fetch)
    ensures AllLeaving(FetchPlan(p, d, j, f).items)
  {
    hide LoadPlan, InitialRoot, AcceptRelease, Written, Opening;
    var staged := StagePlan(d, j, f.staging);
    LoadLeaves(Written(d, staged.items), j, Opening(p, j, f));
  }

  lemma FetchedLeaves(p: Policy, d: Disk, j: Journal, s: Sweep, f: Fetch)
    ensures AllLeaving(FetchedPlan(p, d, j, s, f).items)
  {
    hide FetchPlan;
    GenerationsLeave(j, s.generations);
    ObjectsLeave(j, s.objects);
    FetchLeaves(p, Written(d, CollectPlan(j, s).items), j, f);
  }
}
