/** What one updater process may learn from systemd, the clock and the agent's evidence file. */
module Hosts {
  import opened Options
  import opened AgentUpdate
  import opened LocalPolicy
  import opened Journals

  const FRESHNESS_MS := 15000
  const WALL_SKEW_MS := 1000

  /** `systemctl show`; an absent property reads as the empty string. */
  datatype Props = Props(
    activeState: string, result: string, exit: string,
    invocation: string, mainPid: string, controlGroup: string)

  /** The agent's own report; `pid` in decimal. */
  datatype Evidence = Evidence(
    schema: nat, pid: string, invocation: string, executable: Digest,
    sampledAt: nat, collectedAt: nat, counter: nat)

  /** One reading of the agent unit together with everything `health` consults. */
  datatype Sight = Sight(process: Props, file: Option<Evidence>, now: nat, wall: nat)

  datatype CgroupRead = NoCgroup | Processes(empty: bool) | Unreadable

  /** Successive boot-clock reads of one process. */
  datatype Clock = Clock(first: nat, second: nat, third: nat, fourth: nat)

  /**
   * The answers given to one process; `None` is a call that failed. `activeFault` is the error,
   * if any, of verifying the object behind `active`.
   */
  datatype Host = Host(
    boot: Option<string>,
    clock: Option<Clock>,
    agent: Option<Props>,
    probe: Option<Props>,
    stop: Option<Props>,
    cgroup: CgroupRead,
    trial: Option<Sight>,
    restore: Option<Sight>,
    activeFault: Option<Error>)

  predicate ValidEvidence(e: Evidence) {
    && e.schema == 1 && e.pid != "0" && e.counter > 0 && e.sampledAt > 0 && e.collectedAt > 0
    && ValidRequestId(e.invocation) && ValidDigest(e.executable)
  }

  predicate Within(a: nat, b: nat, span: nat) {
    a <= b + span
  }

  /**
   * Evidence of the unit's current process and invocation for the expected object, sampled at most
   * 15 seconds ago on the boot clock and collected around now on the wall clock.
   */
  predicate Convinces(e: Evidence, s: Sight, expected: Digest) {
    && e.schema == 1 && e.counter > 0 && e.sampledAt > 0 && e.collectedAt > 0
    && |e.invocation| == 32 && |e.executable| == 64
    && (forall i | 0 <= i < 32 :: e.invocation[i] in "0123456789abcdef")
    && (forall i | 0 <= i < 64 :: e.executable[i] in "0123456789abcdef")
    && s.process.activeState == "active" && e.pid != "0"
    && e.executable == expected && e.invocation == s.process.invocation && e.pid == s.process.mainPid
    && e.sampledAt <= s.now && Within(s.now, e.sampledAt, FRESHNESS_MS)
    && Within(e.collectedAt, s.wall, WALL_SKEW_MS) && Within(s.wall, e.collectedAt, FRESHNESS_MS)
  }

  lemma ValidEvidenceIff(e: Evidence)
    ensures ValidEvidence(e) <==>
              && e.schema == 1 && e.counter > 0 && e.sampledAt > 0 && e.collectedAt > 0 && e.pid != "0"
              && |e.invocation| == 32 && |e.executable| == 64
              && (forall i | 0 <= i < 32 :: e.invocation[i] in "0123456789abcdef")
              && (forall i | 0 <= i < 64 :: e.executable[i] in "0123456789abcdef")
  {
    HexDigits(e.invocation);
    HexDigits(e.executable);
  }

  /** `system::health` */
  function Health(active: Digest, s: Sight, expected: Digest): (r: Option<Evidence>)
    ensures r.Some? ==> r == s.file && active == expected && Convinces(r.value, s, expected)
    ensures r.None? ==> s.file.None? || active != expected || !Convinces(s.file.value, s, expected)
  {
    if s.process.activeState != "active" || active != expected || s.file.None? then None
    else
      var e := s.file.value;
      ValidEvidenceIff(e);
      if !ValidEvidence(e)
         || e.executable != expected
         || e.invocation != s.process.invocation
         || e.pid != s.process.mainPid
         || e.sampledAt > s.now
         || s.now - e.sampledAt > FRESHNESS_MS
         || e.collectedAt > s.wall + WALL_SKEW_MS
         || (s.wall > e.collectedAt && s.wall - e.collectedAt > FRESHNESS_MS)
      then None
      else Some(e)
  }

  /** Some `/`-separated part of the path is `..`. */
  predicate ClimbsUp(path: string) {
    |path| >= 3 && ((path[..3] == "/.." && (|path| == 3 || path[3] == '/')) || ClimbsUp(path[1..]))
  }

  /** `system::stopped` */
  function Stopped(process: Props, cgroup: CgroupRead): Result<bool> {
    if process.activeState != "inactive" || process.mainPid != "0" then Ok(false)
    else if process.controlGroup == "" then Ok(true)
    else if !("/system.slice/" <= process.controlGroup) || ClimbsUp(process.controlGroup) then Err(Recovery)
    else
      match cgroup
      case NoCgroup => Ok(true)
      case Processes(empty) => Ok(empty)
      case Unreadable => Err(Failure)
  }

  /** Some part of the path, from `i` on, is `..`. */
  predicate StepsUp(path: string, i: nat) {
    && i + 3 <= |path| && path[i] == '/' && path[i + 1] == '.' && path[i + 2] == '.'
    && (i + 3 == |path| || path[i + 3] == '/')
  }

  lemma {:induction false} ClimbsUpIff(path: string)
    ensures ClimbsUp(path) <==> exists i: nat :: StepsUp(path, i)
    decreases |path|
  {
    if |path| >= 3 {
      ClimbsUpIff(path[1..]);
      assert StepsUp(path, 0) <==> path[..3] == "/.." && (|path| == 3 || path[3] == '/');
      forall i: nat ensures StepsUp(path[1..], i) <==> StepsUp(path, i + 1) {
      }
      if i: nat :| StepsUp(path, i) {
        assert i > 0 ==> StepsUp(path[1..], i - 1);
      }
    }
  }

  /** A control group of the system's own services, which no part of its path leaves. */
  ghost predicate SystemService(group: string) {
    "/system.slice/" <= group && forall i: nat :: !StepsUp(group, i)
  }

  /** The unit is down and none of its processes is left. */
  ghost predicate NobodyLeft(unit: Props, cgroup: CgroupRead) {
    && unit.activeState == "inactive" && unit.mainPid == "0"
    && (unit.controlGroup == "" || (SystemService(unit.controlGroup) && cgroup in {NoCgroup, Processes(true)}))
  }

  /** Which answers of the host say that the agent has stopped, has not, or leave it open. */
  lemma StoppedIff(unit: Props, cgroup: CgroupRead)
    ensures Stopped(unit, cgroup) == Ok(true) <==> NobodyLeft(unit, cgroup)
    ensures Stopped(unit, cgroup) == Ok(false) <==>
              || unit.activeState != "inactive" || unit.mainPid != "0"
              || (unit.controlGroup != "" && SystemService(unit.controlGroup) && cgroup == Processes(false))
    ensures Stopped(unit, cgroup).Err? ==>
              && unit.controlGroup != ""
              && Stopped(unit, cgroup).error == (if SystemService(unit.controlGroup) then Failure else Recovery)
  {
    ClimbsUpIff(unit.controlGroup);
  }

  /** An exit timestamp that systemd has actually set. */
  predicate RealExit(exit: string) {
    exit != "" && exit != "0"
  }
}
