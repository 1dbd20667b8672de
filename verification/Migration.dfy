/**
 * The first migration from the legacy installation to the signed one: three files decide what boots
 * next (the agent's unit, its recovery drop-in and the migration journal), and recovery may itself
 * be cut off anywhere, any number of times.
 */
module Migrations {
  import opened Options

  datatype Phase = Prepared | Stopping | Switching | Trial | Committed | RolledBack | ManualRecovery

  datatype Unit = OldUnit | NewUnit

  /** A drop-in whose creation was cut off exists but does not order anything yet. */
  datatype DropIn = Absent | Cut | Whole

  /** What provisioning leaves on disk: the updater's directories, programs, policy and fixed units. */
  datatype Item =
    | Home | Private | Code | Objects | Public | Requests | Bridge | PolicyDirectory
    | Anchor | UpdaterProgram | PolicyFile | Baseline
    | FixedUnit(n: nat)

  /** A new attempt replaces these; any other item it only compares. */
  predicate Replaceable(item: Item) {
    item.PolicyFile? || item.Baseline?
  }

  const QUOTA := 128

  /** What a step does besides the files of the site. */
  datatype Deed =
    | ReadOriginals | KeepRecords | Accounts | MatchBaseline | ResetPreflight | Preflight
    | DisableUnits | StopUnits | ReadUnit | StopBarrier | ConfigBarrier | DropInDirectory | SyncDropIn
    | ReloadUnits | VerifyUnits | ResetAgent | RequestAgent | Healthy | EnableUnits

  /**
   * `cut`: items that exist but were not finished. `started`: the marker that trust processing has begun;
   * `enrolled`: the updater's own journal exists. `shut`: its state refuses every enrollment check, because
   * an operator has been called or its journal was written at epoch zero. `stock` counts its metadata
   * generations, `missing` those its cache still lacks of one complete load.
   */
  datatype Base =
    Base(whole: set<Item>, cut: set<Item>, started: bool, enrolled: bool, shut: bool, stock: nat, missing: nat)

  /** `marked`: the migration directory exists, so this is not a first attempt. */
  datatype Site = Site(journal: Option<Phase>, unit: Unit, dropin: DropIn, marked: bool, base: Base)

  /**
   * `Act` is a step with no durable effect of its own here: a deed of systemd, a barrier, a check.
   * `Provide`, `CheckTrust` behave differently when an earlier attempt is resumed. `Generation` and
   * `Publication` are the metadata generations an enrollment check makes. `StartAgent` starts the updater's
   * boot unit first.
   */
  datatype Step =
    | Act(deed: Deed) | Save(phase: Phase) | Install(unit: Unit) | CreateDropIn | RemoveDropIn | MakeHome
    | Provide(item: Item, resuming: bool) | CheckTrust(resuming: bool) | StartTrust | Enroll | Generation | Publication
    | StartAgent

  /** `Lost` and `Torn` raise, without and with the effect; `Partial` cuts a new file short. */
  datatype Luck = Done | Lost | Partial | Torn

  datatype Ended = Fine | Raised | PowerOff

  datatype Ran = Ran(site: Site, luck: seq<Luck>, end: Ended)

  function Effect(s: Site, step: Step): Site {
    match step
    case Act(_) => s
    case Save(phase) => s.(journal := Some(phase))
    case Install(unit) => s.(unit := unit)
    case CreateDropIn => s.(dropin := Whole)
    case RemoveDropIn => s.(dropin := Absent)
    case MakeHome => s.(marked := true)
    case Provide(item, _) => s.(base := s.base.(whole := s.base.whole + {item}, cut := s.base.cut - {item}))
    case CheckTrust(_) => s
    case StartTrust => s.(base := s.base.(started := true))
    case Enroll => s.(base := s.base.(enrolled := true))
    case Generation => s.(base := s.base.(stock := s.base.stock + 1))
    case Publication => s.(base := s.base.(stock := s.base.stock + 1, missing := Less(s.base.missing)))
    case StartAgent => s
  }

  function Less(n: nat): nat {
    if n == 0 then 0 else n - 1
  }

  predicate Exists(b: Base, item: Item) {
    item in b.whole || item in b.cut
  }

  /** The step raises whatever its luck: exclusive creation, a failed comparison, lost trust, a full store. */
  predicate Blocked(s: Site, step: Step) {
    match step
    case CreateDropIn => s.dropin != Absent
    case Provide(item, resuming) => Exists(s.base, item) && (!resuming || (item in s.base.cut && !Replaceable(item)))
    case CheckTrust(resuming) => resuming && s.base.started && !s.base.enrolled
    case Enroll => s.base.shut
    case Generation => s.base.stock >= QUOTA
    case Publication => s.base.stock >= QUOTA
    case _ => false
  }

  /**
   * What is left when power or an error cuts the step short. Replacing an existing file is atomic. The
   * updater's new journal may carry epoch zero, and its boot unit may fail and call for an operator.
   */
  function Partly(s: Site, step: Step): Site {
    match step
    case CreateDropIn => s.(dropin := Cut)
    case Provide(item, _) => if Exists(s.base, item) then s else s.(base := s.base.(cut := s.base.cut + {item}))
    case MakeHome => s.(marked := true)
    case StartTrust => s.(base := s.base.(started := true))
    case Generation => s.(base := s.base.(stock := s.base.stock + 1))
    case Publication => s.(base := s.base.(stock := s.base.stock + 1))
    case Enroll => if s.base.enrolled then s else s.(base := s.base.(enrolled := true, shut := true))
    case StartAgent => s.(base := s.base.(shut := true))
    case _ => s
  }

  function Hit(s: Site, step: Step, luck: Luck): (Site, bool) {
    if Blocked(s, step) then (s, false)
    else
      match luck
      case Done => (Effect(s, step), true)
      case Lost => (s, false)
      case Partial => (Partly(s, step), false)
      case Torn => (Effect(s, step), false)
  }

  /** The steps one after another, up to the first that raises or finds no power. */
  function Walk(s: Site, steps: seq<Step>, luck: seq<Luck>): Ran
    decreases |steps|
  {
    if steps == [] then Ran(s, luck, Fine)
    else if luck == [] then Ran(s, [], PowerOff)
    else
      var (next, ok) := Hit(s, steps[0], luck[0]);
      if ok then Walk(next, steps[1..], luck[1..]) else Ran(next, luck[1..], Raised)
  }

  function Then(r: Ran, steps: seq<Step>): Ran {
    if r.end.Fine? then Walk(r.site, steps, r.luck) else r
  }

  // ---- recover and handoff ------------------------------------------------------------------------------

  predicate Finished(p: Phase) {
    p == Committed || p == RolledBack
  }

  function Disarming(): seq<Step> {
    [Act(DisableUnits), Act(StopUnits), Act(ReadUnit)]
  }

  /** The agent is down with nothing left of it, and its configuration is on disk. */
  function Halting(): seq<Step> {
    [Act(StopBarrier), Act(ConfigBarrier)]
  }

  function Reviving(): seq<Step> {
    [Act(SyncDropIn), Act(ReloadUnits), Act(ResetAgent)]
  }

  function UndoTail(): seq<Step> {
    [RemoveDropIn] + (Reviving() + [Save(RolledBack), Act(RequestAgent)])
  }

  /** Back to the legacy unit; the drop-in goes only after it. */
  function UndoSteps(unit: Unit): seq<Step> {
    Disarming() + (if unit == OldUnit then [] else Halting() + [Install(OldUnit)]) + UndoTail()
  }

  /** The journal records that an operator is needed; the exception goes on whatever the save does. */
  function Surrender(r: Ran): Ran {
    var saved := Walk(r.site, [Save(ManualRecovery)], r.luck);
    if saved.end.PowerOff? then saved else saved.(end := Raised)
  }

  /** `recover`; `intact` says that the saved unit and the legacy program still have their digests. */
  function Recovered(s: Site, intact: bool, luck: seq<Luck>): Ran {
    if s.journal.None? || Finished(s.journal.value) then Ran(s, luck, Fine)
    else
      var read := Walk(s, [Act(ReadOriginals)], luck);
      if !read.end.Fine? then read
      else if !intact then Surrender(read)
      else
        var undone := Walk(s, UndoSteps(s.unit), read.luck);
        if undone.end.Raised? then Surrender(undone) else undone
  }

  // ---- provisioning ---------------------------------------------------------------------------------------

  function Layout(): seq<Item> {
    [Home, Private, Code, Objects, Public, Requests, Bridge, PolicyDirectory]
  }

  function Programs(): seq<Item> {
    [Anchor, UpdaterProgram, PolicyFile, Baseline]
  }

  function Units(): (items: seq<Item>)
    ensures |items| == 13 && forall i :: 0 <= i < 13 ==> items[i] == FixedUnit(i)
  {
    seq(13, i requires 0 <= i < 13 => FixedUnit(i))
  }

  function Provides(items: seq<Item>, resuming: bool): (steps: seq<Step>)
    ensures |steps| == |items| && forall i :: 0 <= i < |items| ==> steps[i] == Provide(items[i], resuming)
  {
    seq(|items|, i requires 0 <= i < |items| => Provide(items[i], resuming))
  }

  function Publications(n: nat): (steps: seq<Step>)
    ensures |steps| == n && forall i :: 0 <= i < n ==> steps[i] == Publication
  {
    seq(n, i => Publication)
  }

  /** `verify-enrollment`: the updater's journal first, then a complete metadata load. */
  function TrustSteps(resuming: bool, publications: nat): seq<Step> {
    [CheckTrust(resuming), StartTrust, Enroll, Generation] + (Publications(publications) + [Act(MatchBaseline)])
  }

  function Preflighting(): seq<Step> {
    [Act(ReloadUnits), Act(ResetPreflight), Act(Preflight)]
  }

  /** `provision`, from accounts to the preflight. */
  function ProvisionSteps(resuming: bool, publications: nat): seq<Step> {
    [Act(Accounts)] + (Provides(Layout() + Programs(), resuming)
             + (TrustSteps(resuming, publications) + (Provides(Units(), resuming) + Preflighting())))
  }

  /** A load makes at least the publications its cache lacks; more if the metadata has changed. */
  function Provisioning(s: Site, resuming: bool, changed: nat): seq<Step> {
    ProvisionSteps(resuming, if changed < s.base.missing then s.base.missing else changed)
  }

  function Checking(): seq<Step> {
    [Act(ReloadUnits), Act(VerifyUnits)]
  }

  function Proving(): seq<Step> {
    [Act(Healthy), Act(EnableUnits)]
  }

  function StopSteps(): seq<Step> {
    [Save(Stopping)] + (Halting() + [Save(Switching), Act(DropInDirectory)])
  }

  /** The drop-in first: a new unit must never survive a power cut without it. */
  function SwitchSteps(): seq<Step> {
    [CreateDropIn, Install(NewUnit)] + (Checking() + [Save(Trial)])
  }

  function TrialSteps(): seq<Step> {
    [Act(ResetAgent), StartAgent] + (Proving() + [Save(Committed)])
  }

  /** From the provisioned updater to the committed switch. */
  function SwitchoverSteps(): seq<Step> {
    StopSteps() + (SwitchSteps() + TrialSteps())
  }

  /**
   * What a call finds: whether the legacy program and the saved unit still have their digests, and how many
   * publications the updater's load makes.
   */
  datatype World = World(legacy: bool, saved: bool, changed: nat)

  predicate Intact(w: World) {
    w.legacy && w.saved
  }

  /** `handoff`: any exception is followed by a recovery, and raised again. */
  function Handoff(s: Site, resuming: bool, w: World, luck: seq<Luck>): Ran {
    var r := Then(Walk(s, Provisioning(s, resuming, w.changed), luck), SwitchoverSteps());
    if !r.end.Raised? then r
    else
      var back := Recovered(r.site, Intact(w), r.luck);
      if back.end.PowerOff? then back else back.(end := Raised)
  }

  /** The journal is created or reopened, and the handoff begins. */
  function Begun(s: Site, resuming: bool, w: World, luck: seq<Luck>): Ran {
    var r := Walk(s, [Act(KeepRecords), Save(Prepared)], luck);
    if r.end.Fine? then Handoff(r.site, resuming, w, r.luck) else r
  }

  /** `apply` on an installation nobody has tried to migrate: any earlier attempt left its directory. */
  function Applied(s: Site, w: World, luck: seq<Luck>): Ran {
    if s.journal.Some? || s.marked then Ran(s, luck, Raised)
    else
      var made := Walk(s, [MakeHome], luck);
      if made.end.Fine? then Begun(made.site, false, w, made.luck) else made
  }

  /** `resume` after a rollback; the installed unit and program must still be the legacy ones. */
  function Resumed(s: Site, w: World, luck: seq<Luck>): Ran {
    if s.journal != Some(RolledBack) || s.unit != OldUnit || !w.legacy then Ran(s, luck, Raised) else Begun(s, true, w, luck)
  }

  // ---- safety at every cut --------------------------------------------------------------------------------

  /** What must hold whenever the power may fail. */
  predicate Sound(s: Site) {
    && (s.journal.Some? ==> s.marked)
    && (s.unit == NewUnit ==> s.dropin == Whole && s.journal.Some?)
    && (s.journal in {None, Some(Prepared), Some(Stopping), Some(RolledBack)} ==> s.unit == OldUnit && s.dropin == Absent)
    && (s.journal == Some(Committed) ==> s.unit == NewUnit && s.dropin == Whole)
  }

  /** A step may be taken here and leaves the site sound, whatever becomes of it. */
  predicate Allowed(s: Site, step: Step) {
    match step
    case Act(_) => true
    case Save(phase) =>
      && s.marked
      && (phase in {Prepared, Stopping, RolledBack} ==> s.unit == OldUnit && s.dropin == Absent)
      && (phase == Committed ==> s.unit == NewUnit)
    case Install(unit) =>
      s.journal in {Some(Switching), Some(Trial), Some(ManualRecovery)} && (unit == NewUnit ==> s.dropin == Whole)
    case CreateDropIn => s.journal in {Some(Switching), Some(Trial), Some(ManualRecovery)}
    case RemoveDropIn => s.unit == OldUnit
    case _ => true
  }

  ghost predicate AllAllowed(s: Site, steps: seq<Step>)
    decreases |steps|
  {
    steps == [] || (Allowed(s, steps[0]) && (Hit(s, steps[0], Done).1 ==> AllAllowed(Effect(s, steps[0]), steps[1..])))
  }

  lemma AllowedSound(s: Site, step: Step, luck: Luck)
    requires Sound(s) && Allowed(s, step)
    ensures Sound(Hit(s, step, luck).0)
  {
  }

  lemma {:induction false} WalkSound(s: Site, steps: seq<Step>, luck: seq<Luck>)
    requires Sound(s) && AllAllowed(s, steps)
    ensures Sound(Walk(s, steps, luck).site)
    decreases |steps|
  {
    if steps != [] && luck != [] {
      AllowedSound(s, steps[0], luck[0]);
      if Hit(s, steps[0], luck[0]).1 {
        WalkSound(Effect(s, steps[0]), steps[1..], luck[1..]);
      }
    }
  }

  function Effects(s: Site, steps: seq<Step>): Site
    decreases |steps|
  {
    if steps == [] then s else Effects(Effect(s, steps[0]), steps[1..])
  }

  /** The end of a recovery, once the legacy unit is back. */
  lemma UndoEndAllowed(s: Site)
    requires s.marked && s.unit == OldUnit
    ensures AllAllowed(s, UndoTail())
  {
    var gone := s.(dropin := Absent);
    AllowedNil(gone.(journal := Some(RolledBack)));
    AllowedCons(gone.(journal := Some(RolledBack)), Act(RequestAgent), []);
    assert Allowed(gone, Save(RolledBack)) && Allowed(s, RemoveDropIn);
    AllowedCons(gone, Save(RolledBack), [Act(RequestAgent)] + []);
    hide AllAllowed, Allowed;
    assert [Save(RolledBack)] + ([Act(RequestAgent)] + []) == [Save(RolledBack), Act(RequestAgent)];
    ActsAllowed(gone, Reviving(), [Save(RolledBack), Act(RequestAgent)]);
    AllowedCons(s, RemoveDropIn, Reviving() + [Save(RolledBack), Act(RequestAgent)]);
  }

  lemma AllowedNil(s: Site)
    ensures AllAllowed(s, [])
  {
  }

  lemma UndoParts(unit: Unit)
    ensures UndoSteps(unit)
            == Disarming() + (if unit == OldUnit then UndoTail() else Halting() + ([Install(OldUnit)] + UndoTail()))
  {
  }

  lemma UndoAllowed(s: Site)
    requires Sound(s) && s.journal.Some? && !Finished(s.journal.value)
    ensures AllAllowed(s, UndoSteps(s.unit))
  {
    assert s.marked && (s.unit != OldUnit ==> Allowed(s, Install(OldUnit)));
    hide AllAllowed, Allowed, Sound, UndoSteps;
    UndoParts(s.unit);
    UndoEndAllowed(s.(unit := OldUnit));
    var rest := UndoTail();
    hide UndoTail;
    if s.unit == OldUnit {
      ActsAllowed(s, Disarming(), rest);
    } else {
      AllowedCons(s, Install(OldUnit), rest);
      ActsAllowed(s, Halting(), [Install(OldUnit)] + rest);
      ActsAllowed(s, Disarming(), Halting() + ([Install(OldUnit)] + rest));
    }
  }

  predicate Idle(acts: seq<Step>) {
    forall i | 0 <= i < |acts| :: acts[i].Act?
  }

  lemma {:induction false} ActsAllowed(s: Site, acts: seq<Step>, steps: seq<Step>)
    requires AllAllowed(s, steps) && Idle(acts)
    ensures AllAllowed(s, acts + steps)
    decreases |acts|
  {
    if acts == [] {
      assert acts + steps == steps;
    } else {
      ActsAllowed(s, acts[1..], steps);
      assert (acts + steps)[1..] == acts[1..] + steps;
    }
  }

  lemma AllowedCons(s: Site, step: Step, rest: seq<Step>)
    requires Allowed(s, step) && (Hit(s, step, Done).1 ==> AllAllowed(Effect(s, step), rest))
    ensures AllAllowed(s, [step] + rest)
  {
    assert ([step] + rest)[1..] == rest;
  }

  lemma TrialAllowed(s: Site)
    requires s == Site(Some(Trial), NewUnit, Whole, true, s.base)
    ensures AllAllowed(s, TrialSteps())
  {
    AllowedCons(s, Save(Committed), []);
    ActsAllowed(s, Proving(), [Save(Committed)] + []);
    AllowedCons(s, StartAgent, Proving() + ([Save(Committed)] + []));
    ActsAllowed(s, [Act(ResetAgent)], [StartAgent] + (Proving() + ([Save(Committed)] + [])));
    assert [Act(ResetAgent)] + ([StartAgent] + (Proving() + ([Save(Committed)] + []))) == TrialSteps();
  }

  lemma SwitchAllowed(s: Site)
    requires s == Site(Some(Switching), OldUnit, Absent, true, s.base)
    ensures AllAllowed(s, SwitchSteps() + TrialSteps())
  {
    var ready := s.(dropin := Whole);
    var switched := ready.(unit := NewUnit);
    assert Allowed(switched, Save(Trial)) && Allowed(ready, Install(NewUnit)) && Allowed(s, CreateDropIn);
    assert Idle(Checking());
    var tail := TrialSteps();
    TrialAllowed(switched.(journal := Some(Trial)));
    hide TrialSteps, AllAllowed, Allowed, SwitchSteps, Checking;
    AllowedCons(switched, Save(Trial), tail);
    ActsAllowed(switched, Checking(), [Save(Trial)] + tail);
    var verify := Checking() + ([Save(Trial)] + tail);
    AllowedCons(ready, Install(NewUnit), verify);
    AllowedCons(s, CreateDropIn, [Install(NewUnit)] + verify);
    SwitchParts(tail);
  }

  lemma SwitchParts(tail: seq<Step>)
    ensures [CreateDropIn] + ([Install(NewUnit)] + (Checking() + ([Save(Trial)] + tail))) == SwitchSteps() + tail
  {
  }

  lemma SwitchoverAllowed(s: Site)
    requires s == Site(Some(Prepared), OldUnit, Absent, true, s.base)
    ensures AllAllowed(s, SwitchoverSteps())
  {
    var stopping, switching := s.(journal := Some(Stopping)), s.(journal := Some(Switching));
    assert Allowed(switching, Act(DropInDirectory)) && Allowed(stopping, Save(Switching)) && Allowed(s, Save(Stopping));
    SwitchAllowed(switching);
    hide SwitchSteps, TrialSteps, AllAllowed, Allowed;
    var tail := SwitchSteps() + TrialSteps();
    AllowedCons(switching, Act(DropInDirectory), tail);
    AllowedCons(stopping, Save(Switching), [Act(DropInDirectory)] + tail);
    ActsAllowed(stopping, Halting(), [Save(Switching)] + ([Act(DropInDirectory)] + tail));
    var stop := Halting() + ([Save(Switching)] + ([Act(DropInDirectory)] + tail));
    AllowedCons(s, Save(Stopping), stop);
    SwitchoverParts(tail);
  }

  lemma SwitchoverParts(tail: seq<Step>)
    ensures [Save(Stopping)] + (Halting() + ([Save(Switching)] + ([Act(DropInDirectory)] + tail))) == StopSteps() + tail
  {
  }

  // ---- provisioning and switching touch different things --------------------------------------------------

  predicate Outer(step: Step) {
    step.Act? || step.Provide? || step.CheckTrust? || step.StartTrust? || step.Enroll? || step.Generation? || step.Publication?
  }

  predicate Inner(step: Step) {
    step.Act? || !(Outer(step) || step.StartAgent?)
  }

  predicate SameCore(s: Site, t: Site) {
    t == s.(base := t.base)
  }

  lemma {:induction false} WalkOuter(s: Site, steps: seq<Step>, luck: seq<Luck>)
    requires forall i | 0 <= i < |steps| :: Outer(steps[i])
    ensures SameCore(s, Walk(s, steps, luck).site)
    decreases |steps|
  {
    if steps != [] && luck != [] && Hit(s, steps[0], luck[0]).1 {
      WalkOuter(Effect(s, steps[0]), steps[1..], luck[1..]);
    }
  }

  lemma {:induction false} WalkInner(s: Site, steps: seq<Step>, luck: seq<Luck>)
    requires forall i | 0 <= i < |steps| :: Inner(steps[i])
    ensures Walk(s, steps, luck).site.base == s.base
    decreases |steps|
  {
    if steps != [] && luck != [] && Hit(s, steps[0], luck[0]).1 {
      WalkInner(Effect(s, steps[0]), steps[1..], luck[1..]);
    }
  }

  lemma ProvisionOuter(resuming: bool, publications: nat)
    ensures var steps := ProvisionSteps(resuming, publications); forall i | 0 <= i < |steps| :: Outer(steps[i])
  {
    hide Layout, Programs, Units;
  }

  lemma SurrenderKeeps(r: Ran)
    requires Sound(r.site) && r.site.journal.Some? && r.site.journal != Some(Committed)
    ensures var t := Surrender(r).site;
            Sound(t) && t.journal.Some? && t.journal != Some(Committed) && t.base == r.site.base
  {
    assert [Save(ManualRecovery)][1..] == [];
  }

  lemma WalkAct(s: Site, luck: seq<Luck>)
    ensures Walk(s, [Act(ReadOriginals)], luck).site == s
  {
    assert [Act(ReadOriginals)][1..] == [];
  }

  /** A recovery never invents a commit. */
  lemma {:induction false} WalkKeepsOpen(s: Site, steps: seq<Step>, luck: seq<Luck>)
    requires s.journal.Some? && s.journal.value != Committed
    requires forall i | 0 <= i < |steps| :: steps[i].Save? ==> steps[i].phase != Committed
    ensures var t := Walk(s, steps, luck).site; t.journal.Some? && t.journal.value != Committed
    decreases |steps|
  {
    if steps != [] && luck != [] && Hit(s, steps[0], luck[0]).1 {
      WalkKeepsOpen(Effect(s, steps[0]), steps[1..], luck[1..]);
    }
  }

  /** Whenever and wherever a recovery is cut off, the site is sound and no commit appeared. */
  lemma RecoverKeeps(s: Site, intact: bool, luck: seq<Luck>)
    requires Sound(s)
    ensures var t := Recovered(s, intact, luck).site;
            && Sound(t)
            && (t.journal == Some(Committed) <==> s.journal == Some(Committed))
            && (s.journal.Some? <==> t.journal.Some?)
            && t.base == s.base && t.marked == s.marked && (s.journal.None? ==> t == s)
  {
    if s.journal.Some? && !Finished(s.journal.value) {
      var read := Walk(s, [Act(ReadOriginals)], luck);
      WalkAct(s, luck);
      UndoAllowed(s);
      assert forall i | 0 <= i < |UndoSteps(s.unit)| ::
          Inner(UndoSteps(s.unit)[i]) && (UndoSteps(s.unit)[i].Save? ==> UndoSteps(s.unit)[i].phase != Committed);
      hide Walk, UndoSteps, Surrender, Sound, AllAllowed, Inner;
      if read.end.Fine? && !intact {
        SurrenderKeeps(read);
      } else if read.end.Fine? {
        var undone := Walk(s, UndoSteps(s.unit), read.luck);
        WalkSound(s, UndoSteps(s.unit), read.luck);
        WalkInner(s, UndoSteps(s.unit), read.luck);
        WalkKeepsOpen(s, UndoSteps(s.unit), read.luck);
        if undone.end.Raised? {
          SurrenderKeeps(undone);
        }
      }
    }
    SoundMarks(s);
    SoundMarks(Recovered(s, intact, luck).site);
  }

  lemma SoundMarks(s: Site)
    requires Sound(s)
    ensures s.journal.Some? ==> s.marked
  {
  }

  /** A handoff cut off or failing anywhere, its own recovery included, leaves a sound site. */
  lemma HandoffKeeps(s: Site, resuming: bool, w: World, luck: seq<Luck>)
    requires s == Site(Some(Prepared), OldUnit, Absent, true, s.base)
    ensures Sound(Handoff(s, resuming, w, luck).site)
  {
    var made := Walk(s, Provisioning(s, resuming, w.changed), luck);
    ProvisionOuter(resuming, if w.changed < s.base.missing then s.base.missing else w.changed);
    WalkOuter(s, Provisioning(s, resuming, w.changed), luck);
    SwitchoverAllowed(made.site);
    WalkSound(made.site, SwitchoverSteps(), made.luck);
    var r := Then(made, SwitchoverSteps());
    assert Sound(r.site) by {
      hide SwitchoverSteps;
    }
    hide Recovered, Provisioning, SwitchoverSteps;
    RecoverKeeps(r.site, Intact(w), r.luck);
  }

  lemma BeginKeeps(s: Site, resuming: bool, w: World, luck: seq<Luck>)
    requires Sound(s) && s.journal in {None, Some(RolledBack)} && s.marked
    ensures Sound(Begun(s, resuming, w, luck).site)
    ensures var r := Walk(s, [Act(KeepRecords), Save(Prepared)], luck);
            r.site.base == s.base && (r.end.Fine? ==> r.site == Site(Some(Prepared), OldUnit, Absent, true, s.base))
  {
    hide Handoff;
    AllowedCons(s, Save(Prepared), []);
    AllowedCons(s, Act(KeepRecords), [Save(Prepared)] + []);
    assert [Act(KeepRecords)] + ([Save(Prepared)] + []) == [Act(KeepRecords), Save(Prepared)];
    assert [Act(KeepRecords), Save(Prepared)][1..] == [Save(Prepared)] && [Save(Prepared)][1..] == [];
    WalkSound(s, [Act(KeepRecords), Save(Prepared)], luck);
    WalkInner(s, [Act(KeepRecords), Save(Prepared)], luck);
    var r := Walk(s, [Act(KeepRecords), Save(Prepared)], luck);
    if r.end.Fine? {
      HandoffKeeps(r.site, resuming, w, r.luck);
    }
  }

  // ---- completion ---------------------------------------------------------------------------------------------

  /** Nothing goes wrong for as long as it matters. */
  predicate Calm(luck: seq<Luck>, n: nat) {
    |luck| >= n && forall i | 0 <= i < |luck| :: luck[i].Done?
  }

  /** No step is blocked by what the earlier ones and the site bring along. */
  predicate Unblocked(s: Site, steps: seq<Step>)
    decreases |steps|
  {
    steps == [] || (!Blocked(s, steps[0]) && Unblocked(Effect(s, steps[0]), steps[1..]))
  }

  lemma {:induction false} WalkCalm(s: Site, steps: seq<Step>, luck: seq<Luck>)
    requires Calm(luck, |steps|) && Unblocked(s, steps)
    ensures Walk(s, steps, luck) == Ran(Effects(s, steps), luck[|steps|..], Fine)
    decreases |steps|
  {
    if steps == [] {
      assert luck[0..] == luck;
    } else {
      WalkCalm(Effect(s, steps[0]), steps[1..], luck[1..]);
      assert luck[1..][|steps| - 1..] == luck[|steps|..];
    }
  }

  lemma {:induction false} UnblockedConcat(s: Site, a: seq<Step>, b: seq<Step>)
    requires Unblocked(s, a) && Unblocked(Effects(s, a), b)
    ensures Unblocked(s, a + b)
    decreases |a|
  {
    if a == [] {
      assert a + b == b;
    } else {
      assert (a + b)[1..] == a[1..] + b;
      UnblockedConcat(Effect(s, a[0]), a[1..], b);
    }
  }

  /** Steps that can never be blocked. */
  lemma {:induction false} FreeUnblocked(s: Site, steps: seq<Step>)
    requires forall i | 0 <= i < |steps| ::
               steps[i].Act? || steps[i].Save? || steps[i].Install? || steps[i].RemoveDropIn? || steps[i].MakeHome?
               || steps[i].StartTrust? || steps[i].StartAgent?
    ensures Unblocked(s, steps)
    decreases |steps|
  {
    if steps != [] {
      FreeUnblocked(Effect(s, steps[0]), steps[1..]);
    }
  }

  lemma {:induction false} EffectsConcat(s: Site, a: seq<Step>, b: seq<Step>)
    ensures Effects(s, a + b) == Effects(Effects(s, a), b)
    decreases |a|
  {
    if a == [] {
      assert a + b == b;
    } else {
      assert (a + b)[1..] == a[1..] + b;
      EffectsConcat(Effect(s, a[0]), a[1..], b);
    }
  }

  lemma {:induction false} ActsChangeNothing(s: Site, acts: seq<Step>)
    requires Idle(acts)
    ensures Effects(s, acts) == s
    decreases |acts|
  {
    if acts != [] {
      ActsChangeNothing(s, acts[1..]);
    }
  }

  lemma UndoEffects(s: Site)
    requires s.journal.Some? && s.marked
    ensures Effects(s, UndoSteps(s.unit)) == Site(Some(RolledBack), OldUnit, Absent, true, s.base)
  {
    var back := if s.unit == OldUnit then [] else Halting() + [Install(OldUnit)];
    var legacy := s.(unit := OldUnit);
    EffectsConcat(s, Disarming() + back, UndoTail());
    EffectsConcat(s, Disarming(), back);
    ActsChangeNothing(s, Disarming());
    assert Effects(s, back) == legacy by {
      if s.unit == NewUnit {
        EffectsConcat(s, Halting(), [Install(OldUnit)]);
        ActsChangeNothing(s, Halting());
        EffectOne(s, Install(OldUnit));
      }
    }
    var gone := legacy.(dropin := Absent);
    var end := [Save(RolledBack), Act(RequestAgent)];
    EffectsConcat(legacy, [RemoveDropIn], Reviving() + end);
    EffectOne(legacy, RemoveDropIn);
    EffectsConcat(gone, Reviving(), end);
    ActsChangeNothing(gone, Reviving());
    assert end == [Save(RolledBack)] + [Act(RequestAgent)];
    EffectsConcat(gone, [Save(RolledBack)], [Act(RequestAgent)]);
    EffectOne(gone, Save(RolledBack));
    EffectOne(gone.(journal := Some(RolledBack)), Act(RequestAgent));
  }

  /**
   * The first recovery that is left alone ends every unfinished migration in `rolled_back`, with the
   * legacy unit and no drop-in; after that recovery changes nothing.
   */
  lemma RecoverCompletes(s: Site, luck: seq<Luck>)
    requires Sound(s) && s.journal.Some? && s.journal != Some(Committed) && Calm(luck, 20)
    ensures var r := Recovered(s, true, luck);
            && r.end.Fine? && r.site == Site(Some(RolledBack), OldUnit, Absent, true, s.base)
            && forall again, intact :: Recovered(r.site, intact, again) == Ran(r.site, again, Fine)
  {
    if s.journal != Some(RolledBack) {
      FreeUnblocked(s, [Act(ReadOriginals)]);
      WalkCalm(s, [Act(ReadOriginals)], luck);
      assert Effects(s, [Act(ReadOriginals)]) == s by {
        assert [Act(ReadOriginals)][1..] == [];
      }
      FreeUnblocked(s, UndoSteps(s.unit));
      WalkCalm(s, UndoSteps(s.unit), luck[1..]);
      UndoEffects(s);
    }
  }

  lemma SwitchoverUnblocked(s: Site)
    requires s.dropin == Absent
    ensures Unblocked(s, SwitchoverSteps())
    ensures Effects(s, SwitchoverSteps()) == s.(journal := Some(Committed), unit := NewUnit, dropin := Whole)
  {
    var switching := s.(journal := Some(Switching));
    var tail := SwitchSteps() + TrialSteps();
    StopEffects(s);
    FreeUnblocked(s, StopSteps());
    assert tail == [CreateDropIn] + tail[1..];
    FreeUnblocked(switching.(dropin := Whole), tail[1..]);
    assert Unblocked(switching, tail);
    SwitchEffects(switching.(dropin := Whole));
    EffectsConcat(s, StopSteps(), tail);
    UnblockedConcat(s, StopSteps(), tail);
  }

  lemma StopEffects(s: Site)
    ensures Effects(s, StopSteps()) == s.(journal := Some(Switching))
  {
    var stopping, directory := s.(journal := Some(Stopping)), [Act(DropInDirectory)];
    assert StopSteps() == [Save(Stopping)] + (Halting() + ([Save(Switching)] + directory));
    EffectsConcat(s, [Save(Stopping)], Halting() + ([Save(Switching)] + directory));
    EffectsConcat(stopping, Halting(), [Save(Switching)] + directory);
    EffectsConcat(stopping, [Save(Switching)], directory);
    EffectOne(s, Save(Stopping));
    EffectOne(stopping, Save(Switching));
    ActsChangeNothing(stopping, Halting());
    ActsChangeNothing(s.(journal := Some(Switching)), directory);
  }

  lemma EffectOne(s: Site, step: Step)
    ensures Effects(s, [step]) == Effect(s, step)
  {
    assert [step][1..] == [];
  }

  lemma SwitchEffects(s: Site)
    ensures Effects(s, (SwitchSteps() + TrialSteps())[1..]) == s.(journal := Some(Committed), unit := NewUnit)
  {
    var t := s.(unit := NewUnit);
    var u := t.(journal := Some(Trial));
    var reset := [Act(ResetAgent)];
    var trial := reset + ([StartAgent] + Proving());
    var last := trial + [Save(Committed)];
    assert (SwitchSteps() + TrialSteps())[1..] == [Install(NewUnit)] + (Checking() + ([Save(Trial)] + last));
    EffectsConcat(s, [Install(NewUnit)], Checking() + ([Save(Trial)] + last));
    EffectsConcat(t, Checking(), [Save(Trial)] + last);
    EffectsConcat(t, [Save(Trial)], last);
    EffectsConcat(u, trial, [Save(Committed)]);
    EffectsConcat(u, reset, [StartAgent] + Proving());
    EffectsConcat(u, [StartAgent], Proving());
    EffectOne(u, StartAgent);
    EffectOne(s, Install(NewUnit));
    EffectOne(t, Save(Trial));
    EffectOne(u, Save(Committed));
    ActsChangeNothing(t, Checking());
    ActsChangeNothing(u, reset);
    ActsChangeNothing(u, Proving());
  }

  // ---- when provisioning gets through -------------------------------------------------------------------------

  function Listed(): seq<Item> {
    Layout() + Programs() + Units()
  }

  /** The item makes its step raise. */
  predicate InTheWay(b: Base, item: Item, resuming: bool) {
    if resuming then item in b.cut && !Replaceable(item) else Exists(b, item)
  }

  /** Nothing is in the way, trust is neither lost nor shut, and the updater has room for one load. */
  predicate Provisionable(b: Base, resuming: bool, publications: nat) {
    && (forall i | 0 <= i < |Listed()| :: !InTheWay(b, Listed()[i], resuming))
    && (resuming && b.started ==> b.enrolled)
    && !b.shut
    && b.stock + 1 + publications <= QUOTA
  }

  function Provided(b: Base, items: seq<Item>): Base {
    b.(whole := b.whole + (set i | i in items), cut := b.cut - (set i | i in items))
  }

  predicate Distinct(items: seq<Item>) {
    forall i, k | 0 <= i < k < |items| :: items[i] != items[k]
  }

  /** The place of an item among the listed ones. */
  function Place(item: Item): nat {
    match item
    case Home => 0
    case Private => 1
    case Code => 2
    case Objects => 3
    case Public => 4
    case Requests => 5
    case Bridge => 6
    case PolicyDirectory => 7
    case Anchor => 8
    case UpdaterProgram => 9
    case PolicyFile => 10
    case Baseline => 11
    case FixedUnit(n) => 12 + n
  }

  lemma Placed()
    ensures |Layout() + Programs()| == 12 && forall i | 0 <= i < 12 :: Place((Layout() + Programs())[i]) == i
  {
    var items := Layout() + Programs();
    assert items[0] == Home && items[1] == Private && items[2] == Code && items[3] == Objects && items[4] == Public
        && items[5] == Requests && items[6] == Bridge && items[7] == PolicyDirectory && items[8] == Anchor
        && items[9] == UpdaterProgram && items[10] == PolicyFile && items[11] == Baseline;
  }

  lemma ListedDistinct()
    ensures Distinct(Layout() + Programs()) && Distinct(Units())
    ensures |Layout() + Programs()| == 12 && |Units()| == 13 && |Listed()| == 25
    ensures forall i, k | 0 <= i < 12 && 0 <= k < 13 :: (Layout() + Programs())[i] != Units()[k]
    ensures Listed() == (Layout() + Programs()) + Units()
  {
    Placed();
    hide Layout, Programs;
    var items, units := Layout() + Programs(), Units();
    forall i, k | 0 <= i < k < 12 ensures items[i] != items[k] {
      assert Place(items[i]) != Place(items[k]);
    }
    forall i, k | 0 <= i < 12 && 0 <= k < 13 ensures items[i] != units[k] {
      assert Place(items[i]) != Place(units[k]);
    }
  }

  lemma ProvidedOne(b: Base, items: seq<Item>, resuming: bool)
    requires items != [] && Distinct(items) && forall i | 0 <= i < |items| :: !InTheWay(b, items[i], resuming)
    ensures var next := b.(whole := b.whole + {items[0]}, cut := b.cut - {items[0]});
            && Provided(next, items[1..]) == Provided(b, items)
            && Distinct(items[1..]) && forall i | 0 <= i < |items[1..]| :: !InTheWay(next, items[1..][i], resuming)
  {
    assert forall i | 0 <= i < |items[1..]| :: items[1..][i] == items[i + 1];
    var rest := set i | i in items[1..];
    assert (set i | i in items) == {items[0]} + rest by {
      assert items == [items[0]] + items[1..];
    }
    assert b.whole + {items[0]} + rest == b.whole + ({items[0]} + rest);
    assert b.cut - {items[0]} - rest == b.cut - ({items[0]} + rest);
  }

  lemma {:induction false} ProvidesUnblocked(s: Site, items: seq<Item>, resuming: bool)
    requires Distinct(items) && forall i | 0 <= i < |items| :: !InTheWay(s.base, items[i], resuming)
    ensures Unblocked(s, Provides(items, resuming))
    ensures Effects(s, Provides(items, resuming)) == s.(base := Provided(s.base, items))
    decreases |items|
  {
    if items == [] {
      assert Provides(items, resuming) == [];
      assert s.base.whole + (set i | i in items) == s.base.whole && s.base.cut - (set i | i in items) == s.base.cut;
    } else {
      var step := Provide(items[0], resuming);
      var next := Effect(s, step);
      assert !Blocked(s, step) by {
        assert !InTheWay(s.base, items[0], resuming);
      }
      ProvidedOne(s.base, items, resuming);
      assert Provides(items, resuming)[0] == step && Provides(items, resuming)[1..] == Provides(items[1..], resuming);
      hide InTheWay, Provided, Distinct;
      ProvidesUnblocked(next, items[1..], resuming);
    }
  }

  lemma {:induction false} PublicationsUnblocked(s: Site, n: nat)
    requires s.base.stock + n <= QUOTA
    ensures Unblocked(s, Publications(n))
    ensures var t := Effects(s, Publications(n));
            SameCore(s, t) && t.base == s.base.(stock := s.base.stock + n, missing := t.base.missing)
    decreases n
  {
    if n > 0 {
      assert Publications(n)[1..] == Publications(n - 1);
      PublicationsUnblocked(Effect(s, Publication), n - 1);
    }
  }

  lemma TrustChecked(s: Site, resuming: bool)
    requires resuming && s.base.started ==> s.base.enrolled
    ensures var two := [CheckTrust(resuming), StartTrust];
            Unblocked(s, two) && Effects(s, two) == s.(base := s.base.(started := true))
  {
    var two := [CheckTrust(resuming), StartTrust];
    assert two[1..] == [StartTrust] && [StartTrust][1..] == [];
  }

  lemma TrustEnrolled(s: Site)
    requires s.base.stock < QUOTA && !s.base.shut
    ensures var two := [Enroll, Generation];
            Unblocked(s, two) && Effects(s, two) == s.(base := s.base.(enrolled := true, stock := s.base.stock + 1))
  {
    var two := [Enroll, Generation];
    assert two[1..] == [Generation] && [Generation][1..] == [];
  }

  lemma TrustBegins(s: Site, resuming: bool)
    requires s.base.stock < QUOTA && !s.base.shut && (resuming && s.base.started ==> s.base.enrolled)
    ensures var first := [CheckTrust(resuming), StartTrust, Enroll, Generation];
            && Unblocked(s, first)
            && Effects(s, first) == s.(base := s.base.(started := true, enrolled := true, stock := s.base.stock + 1))
  {
    var a, b := [CheckTrust(resuming), StartTrust], [Enroll, Generation];
    TrustChecked(s, resuming);
    TrustEnrolled(s.(base := s.base.(started := true)));
    hide Unblocked, Effects;
    UnblockedConcat(s, a, b);
    EffectsConcat(s, a, b);
    assert a + b == [CheckTrust(resuming), StartTrust, Enroll, Generation];
  }

  lemma TrustUnblocked(s: Site, resuming: bool, n: nat)
    requires s.base.stock + 1 + n <= QUOTA && !s.base.shut && (resuming && s.base.started ==> s.base.enrolled)
    ensures Unblocked(s, TrustSteps(resuming, n))
    ensures var t := Effects(s, TrustSteps(resuming, n));
            SameCore(s, t) && t.base.whole == s.base.whole && t.base.cut == s.base.cut && t.base.started && t.base.enrolled
  {
    var first := [CheckTrust(resuming), StartTrust, Enroll, Generation];
    var after := s.(base := s.base.(started := true, enrolled := true, stock := s.base.stock + 1));
    TrustBegins(s, resuming);
    PublicationsUnblocked(after, n);
    var loaded := Effects(after, Publications(n));
    FreeUnblocked(loaded, [Act(MatchBaseline)]);
    EffectOne(loaded, Act(MatchBaseline));
    UnblockedConcat(after, Publications(n), [Act(MatchBaseline)]);
    EffectsConcat(after, Publications(n), [Act(MatchBaseline)]);
    UnblockedConcat(s, first, Publications(n) + [Act(MatchBaseline)]);
    EffectsConcat(s, first, Publications(n) + [Act(MatchBaseline)]);
  }

  lemma ProvisionUnblocked(s: Site, resuming: bool, n: nat)
    requires Provisionable(s.base, resuming, n)
    ensures Unblocked(s, ProvisionSteps(resuming, n))
  {
    hide Layout, Programs, Units, Unblocked, Effects, TrustSteps;
    ListedDistinct();
    var early, units := Layout() + Programs(), Units();
    assert forall i | 0 <= i < 12 :: early[i] == Listed()[i];
    assert forall i | 0 <= i < 13 :: units[i] == Listed()[12 + i];
    ProvidesUnblocked(s, early, resuming);
    var s1 := Effects(s, Provides(early, resuming));
    TrustUnblocked(s1, resuming, n);
    var s2 := Effects(s1, TrustSteps(resuming, n));
    assert forall i | 0 <= i < 13 :: !InTheWay(s2.base, units[i], resuming);
    ProvidesUnblocked(s2, units, resuming);
    ProvisionJoins(s, Provides(early, resuming), TrustSteps(resuming, n), Provides(units, resuming));
  }

  lemma ProvisionJoins(s: Site, a: seq<Step>, b: seq<Step>, c: seq<Step>)
    requires Unblocked(s, a) && Unblocked(Effects(s, a), b) && Unblocked(Effects(Effects(s, a), b), c)
    ensures Unblocked(s, [Act(Accounts)] + (a + (b + (c + Preflighting()))))
  {
    hide Unblocked, Effects;
    var s2, s3 := Effects(Effects(s, a), b), Effects(Effects(Effects(s, a), b), c);
    var last := Preflighting();
    FreeUnblocked(s3, last);
    UnblockedConcat(s2, c, last);
    UnblockedConcat(Effects(s, a), b, c + last);
    UnblockedConcat(s, a, b + (c + last));
    FreeUnblocked(s, [Act(Accounts)]);
    EffectOne(s, Act(Accounts));
    UnblockedConcat(s, [Act(Accounts)], a + (b + (c + last)));
  }

  // ---- and when it never does -----------------------------------------------------------------------------------

  predicate ProvidesAs(steps: seq<Step>, resuming: bool) {
    forall i | 0 <= i < |steps| :: steps[i].Provide? ==> steps[i].resuming == resuming
  }

  /** What is in the way stays there, and its step is never passed. */
  lemma {:induction false} WalkMeets(s: Site, steps: seq<Step>, luck: seq<Luck>, item: Item, resuming: bool)
    requires ProvidesAs(steps, resuming) && InTheWay(s.base, item, resuming)
    ensures var r := Walk(s, steps, luck);
            && InTheWay(r.site.base, item, resuming)
            && (Provide(item, resuming) in steps ==> !r.end.Fine?)
    decreases |steps|
  {
    if steps != [] && luck != [] {
      if Hit(s, steps[0], luck[0]).1 {
        assert forall i | 0 <= i < |steps[1..]| :: steps[1..][i] == steps[i + 1];
        assert Provide(item, resuming) in steps ==> Provide(item, resuming) in steps[1..];
        WalkMeets(Effect(s, steps[0]), steps[1..], luck[1..], item, resuming);
      }
    }
  }

  /** Lost trust is noticed before anything could replace it. */
  lemma {:induction false} WalkDistrusts(s: Site, before: seq<Step>, rest: seq<Step>, luck: seq<Luck>)
    requires s.base.started && !s.base.enrolled && forall i | 0 <= i < |before| :: before[i].Act? || before[i].Provide?
    ensures var r := Walk(s, before + ([CheckTrust(true)] + rest), luck);
            r.site.base.started && !r.site.base.enrolled && !r.end.Fine?
    decreases |before|
  {
    var steps := before + ([CheckTrust(true)] + rest);
    if before == [] {
      assert steps[0] == CheckTrust(true);
    } else {
      assert steps[1..] == before[1..] + ([CheckTrust(true)] + rest) && steps[0] == before[0];
      if luck != [] && Hit(s, steps[0], luck[0]).1 {
        WalkDistrusts(Effect(s, steps[0]), before[1..], rest, luck[1..]);
      }
    }
  }

  /** A shut updater stays so, and no enrollment check is passed. */
  lemma {:induction false} WalkShut(s: Site, steps: seq<Step>, luck: seq<Luck>)
    requires s.base.shut
    ensures var r := Walk(s, steps, luck); r.site.base.shut && (Enroll in steps ==> !r.end.Fine?)
    decreases |steps|
  {
    if steps != [] && luck != [] && Hit(s, steps[0], luck[0]).1 {
      assert Enroll in steps ==> Enroll in steps[1..];
      WalkShut(Effect(s, steps[0]), steps[1..], luck[1..]);
    }
  }

  lemma ProvisionEnrolls(resuming: bool, n: nat)
    ensures Enroll in ProvisionSteps(resuming, n)
  {
    hide Layout, Programs, Units;
    assert TrustSteps(resuming, n)[2] == Enroll;
    hide TrustSteps;
    assert Enroll in TrustSteps(resuming, n) + (Provides(Units(), resuming) + Preflighting());
  }

  /** No room is left for the generations of one complete load. */
  predicate Tight(b: Base) {
    b.stock + 1 + b.missing > QUOTA
  }

  function Generations(steps: seq<Step>): nat
    decreases |steps|
  {
    if steps == [] then 0
    else Counts(steps[0]) + Generations(steps[1..])
  }

  lemma {:induction false} GenerationsConcat(a: seq<Step>, b: seq<Step>)
    ensures Generations(a + b) == Generations(a) + Generations(b)
    decreases |a|
  {
    if a == [] {
      assert a + b == b;
    } else {
      assert (a + b)[1..] == a[1..] + b;
      GenerationsConcat(a[1..], b);
    }
  }

  lemma {:induction false} NoGenerations(steps: seq<Step>)
    requires forall i | 0 <= i < |steps| :: !steps[i].Generation? && !steps[i].Publication?
    ensures Generations(steps) == 0
    decreases |steps|
  {
    if steps != [] {
      NoGenerations(steps[1..]);
    }
  }

  lemma {:induction false} AllGenerations(n: nat)
    ensures Generations(Publications(n)) == n
    decreases n
  {
    if n > 0 {
      assert Publications(n)[1..] == Publications(n - 1);
      AllGenerations(n - 1);
    }
  }

  function Counts(step: Step): nat {
    if step.Generation? || step.Publication? then 1 else 0
  }

  lemma HitFills(s: Site, step: Step, luck: Luck)
    ensures var (t, ok) := Hit(s, step, luck);
            && (Tight(s.base) ==> Tight(t.base))
            && (ok ==> t == Effect(s, step) && t.base.stock == s.base.stock + Counts(step) && (Counts(step) > 0 ==> t.base.stock <= QUOTA))
  {
  }

  /** The store only fills up, and steps that got through fit into it. */
  lemma {:induction false} WalkFills(s: Site, steps: seq<Step>, luck: seq<Luck>)
    ensures var r := Walk(s, steps, luck);
            && (Tight(s.base) ==> Tight(r.site.base))
            && (r.end.Fine? ==> r.site.base.stock == s.base.stock + Generations(steps))
            && (r.end.Fine? && Generations(steps) > 0 ==> s.base.stock + Generations(steps) <= QUOTA)
    decreases |steps|
  {
    if steps != [] && luck != [] {
      HitFills(s, steps[0], luck[0]);
      hide Hit, Effect;
      if Hit(s, steps[0], luck[0]).1 {
        WalkFills(Effect(s, steps[0]), steps[1..], luck[1..]);
      }
    }
  }

  lemma ProvisionGenerations(resuming: bool, n: nat)
    ensures Generations(ProvisionSteps(resuming, n)) == 1 + n
  {
    hide Layout, Programs, Units;
    var early, units := Provides(Layout() + Programs(), resuming), Provides(Units(), resuming);
    var last, first := Preflighting(), [CheckTrust(resuming), StartTrust, Enroll, Generation];
    NoGenerations(early);
    NoGenerations(units + last);
    AllGenerations(n);
    assert Generations([Generation]) == 1 by {
      assert [Generation][1..] == [];
    }
    NoGenerations([CheckTrust(resuming), StartTrust, Enroll]);
    GenerationsConcat([CheckTrust(resuming), StartTrust, Enroll], [Generation]);
    assert first == [CheckTrust(resuming), StartTrust, Enroll] + [Generation];
    NoGenerations([Act(Accounts)]);
    NoGenerations([Act(MatchBaseline)]);
    GenerationsConcat(Publications(n), [Act(MatchBaseline)]);
    GenerationsConcat(first, Publications(n) + [Act(MatchBaseline)]);
    GenerationsConcat(TrustSteps(resuming, n), units + last);
    GenerationsConcat(early, TrustSteps(resuming, n) + (units + last));
    GenerationsConcat([Act(Accounts)], early + (TrustSteps(resuming, n) + (units + last)));
  }

  lemma ProvisionProvides(resuming: bool, n: nat, k: nat)
    requires k < |Listed()|
    ensures ProvidesAs(ProvisionSteps(resuming, n), resuming)
    ensures Provide(Listed()[k], resuming) in ProvisionSteps(resuming, n)
  {
    ListedDistinct();
    var early, units := Layout() + Programs(), Units();
    var item := Listed()[k];
    assert item == if k < 12 then early[k] else units[k - 12];
    hide Layout, Programs, Units, Listed, TrustSteps;
    TrustProvides(resuming, n);
    var a, b, c := Provides(early, resuming), TrustSteps(resuming, n), Provides(units, resuming);
    if k < 12 {
      assert a[k] == Provide(item, resuming);
    } else {
      assert c[k - 12] == Provide(item, resuming);
    }
    assert Provide(item, resuming) in a || Provide(item, resuming) in c;
  }

  lemma TrustProvides(resuming: bool, n: nat)
    ensures forall i | 0 <= i < |TrustSteps(resuming, n)| :: !TrustSteps(resuming, n)[i].Provide?
  {
  }

  /** Provisioning gets through only if nothing stands against it, and what stands against a resumed one stays. */
  lemma ProvisionFails(s: Site, resuming: bool, n: nat, luck: seq<Luck>)
    requires !Provisionable(s.base, resuming, n)
    ensures !Walk(s, ProvisionSteps(resuming, n), luck).end.Fine?
  {
    var steps := ProvisionSteps(resuming, n);
    if k :| 0 <= k < |Listed()| && InTheWay(s.base, Listed()[k], resuming) {
      ProvisionProvides(resuming, n, k);
      hide ProvisionSteps, Listed;
      WalkMeets(s, steps, luck, Listed()[k], resuming);
    } else if resuming && s.base.started && !s.base.enrolled {
      TrustComesFirst(n);
      var early := [Act(Accounts)] + Provides(Layout() + Programs(), true);
      var rest := TrustSteps(true, n)[1..] + (Provides(Units(), true) + Preflighting());
      hide ProvisionSteps, Listed, Layout, Programs, Units, TrustSteps;
      WalkDistrusts(s, early, rest, luck);
    } else if s.base.shut {
      ProvisionEnrolls(resuming, n);
      hide ProvisionSteps, Listed;
      WalkShut(s, steps, luck);
    } else {
      ProvisionGenerations(resuming, n);
      hide ProvisionSteps, Listed;
      WalkFills(s, steps, luck);
    }
  }

  lemma TrustComesFirst(n: nat)
    ensures var early := [Act(Accounts)] + Provides(Layout() + Programs(), true);
            var rest := TrustSteps(true, n)[1..] + (Provides(Units(), true) + Preflighting());
            && ProvisionSteps(true, n) == early + ([CheckTrust(true)] + rest)
            && forall i | 0 <= i < |early| :: early[i].Act? || early[i].Provide?
  {
    hide Layout, Programs, Units;
    var a, c := Provides(Layout() + Programs(), true), Provides(Units(), true) + Preflighting();
    var b := TrustSteps(true, n);
    assert b == [CheckTrust(true)] + b[1..];
    assert [Act(Accounts)] + (a + (b + c)) == ([Act(Accounts)] + a) + ([CheckTrust(true)] + (b[1..] + c));
  }

  function Loads(s: Site, changed: nat): nat {
    if changed < s.base.missing then s.base.missing else changed
  }

  /** Left alone, a handoff ends committed exactly when what it finds lets provisioning through. */
  lemma HandoffCommitsIff(s: Site, resuming: bool, w: World, luck: seq<Luck>)
    requires s == Site(Some(Prepared), OldUnit, Absent, true, s.base) && Calm(luck, 60 + Loads(s, w.changed))
    ensures var r := Handoff(s, resuming, w, luck);
            && (r.site.journal == Some(Committed) <==> Provisionable(s.base, resuming, Loads(s, w.changed)))
            && (r.site.journal == Some(Committed) ==> r.end.Fine? && r.site.unit == NewUnit && r.site.dropin == Whole)
  {
    var n := Loads(s, w.changed);
    var steps := ProvisionSteps(resuming, n);
    assert Provisioning(s, resuming, w.changed) == steps && |steps| == 34 + n;
    ProvisionOuter(resuming, n);
    hide ProvisionSteps;
    WalkOuter(s, steps, luck);
    var made := Walk(s, steps, luck);
    hide Provisionable, Provisioning, Recovered;
    if Provisionable(s.base, resuming, n) {
      ProvisionUnblocked(s, resuming, n);
      WalkCalm(s, steps, luck);
      SwitchoverUnblocked(made.site);
      assert |SwitchoverSteps()| == 15;
      WalkCalm(made.site, SwitchoverSteps(), made.luck);
    } else {
      ProvisionFails(s, resuming, n, luck);
      hide Walk;
      FailedStays(s, resuming, w, luck);
    }
  }

  /** A handoff whose provisioning fails commits nothing. */
  lemma FailedStays(s: Site, resuming: bool, w: World, luck: seq<Luck>)
    requires s == Site(Some(Prepared), OldUnit, Absent, true, s.base)
    requires !Walk(s, Provisioning(s, resuming, w.changed), luck).end.Fine?
    ensures var made := Walk(s, Provisioning(s, resuming, w.changed), luck); var t := Handoff(s, resuming, w, luck).site;
            t.base == made.site.base && t.journal.Some? && t.journal != Some(Committed)
  {
    var made := Walk(s, Provisioning(s, resuming, w.changed), luck);
    ProvisionOuter(resuming, Loads(s, w.changed));
    WalkOuter(s, Provisioning(s, resuming, w.changed), luck);
    hide Provisioning, Walk, Recovered;
    RecoverKeeps(made.site, Intact(w), made.luck);
  }

  // ---- whole histories --------------------------------------------------------------------------------------------

  /**
   * What happens to a site. `Reboot` is a boot during which the updater's boot unit fails: the new agent unit
   * starts it, and it may do so before the boot recovery.
   */
  datatype Call =
    | Apply(w: World, luck: seq<Luck>) | Resume(w: World, luck: seq<Luck>) | Recover(w: World, luck: seq<Luck>)
    | Reboot

  function Called(s: Site, c: Call): Site {
    match c
    case Apply(w, luck) => Applied(s, w, luck).site
    case Resume(w, luck) => Resumed(s, w, luck).site
    case Recover(w, luck) => Recovered(s, Intact(w), luck).site
    case Reboot => if s.unit == NewUnit then s.(base := s.base.(shut := true)) else s
  }

  function CalledAll(s: Site, calls: seq<Call>): Site
    decreases |calls|
  {
    if calls == [] then s else CalledAll(Called(s, calls[0]), calls[1..])
  }

  /** Nothing provisioned yet; `missing` is what one complete load adds to an empty cache. */
  function Bare(missing: nat): Base {
    Base({}, {}, false, false, false, 0, missing)
  }

  function Legacy(missing: nat): Site {
    Site(None, OldUnit, Absent, false, Bare(missing))
  }

  /** An unmarked site is as the legacy installation left it. */
  predicate Untouched(s: Site, missing: nat) {
    !s.marked ==> s == Legacy(missing)
  }

  lemma MadeHome(s: Site, luck: seq<Luck>)
    ensures var r := Walk(s, [MakeHome], luck);
            r.site in {s, s.(marked := true)} && (r.end.Fine? ==> r.site.marked)
    ensures Sound(s) ==> Sound(Walk(s, [MakeHome], luck).site)
  {
    assert [MakeHome][1..] == [];
  }

  /** Marks are never removed. */
  lemma MarkedStays(s: Site, c: Call)
    requires Sound(s) && s.marked
    ensures Sound(Called(s, c)) && Called(s, c).marked && (s.journal.Some? ==> Called(s, c).journal.Some?)
  {
    hide Begun, Recovered;
    match c
    case Apply(w, luck) => assert Applied(s, w, luck).site == s;
    case Resume(w, luck) =>
      if s.journal == Some(RolledBack) {
        BeginKeeps(s, true, w, luck);
        BegunJournal(s, true, w, luck);
      }
    case Recover(w, luck) => RecoverKeeps(s, Intact(w), luck);
    case Reboot =>
  }

  /** A beginning never loses the journal, nor the mark. */
  lemma BegunJournal(s: Site, resuming: bool, w: World, luck: seq<Luck>)
    requires Sound(s) && s.journal in {None, Some(RolledBack)} && s.marked
    ensures var t := Begun(s, resuming, w, luck).site; t.marked && (s.journal.Some? ==> t.journal.Some?)
  {
    BeginKeeps(s, resuming, w, luck);
    assert [Act(KeepRecords), Save(Prepared)][1..] == [Save(Prepared)] && [Save(Prepared)][1..] == [];
    var r := Walk(s, [Act(KeepRecords), Save(Prepared)], luck);
    assert r.site.marked && (s.journal.Some? ==> r.site.journal.Some?);
    if r.end.Fine? {
      HandoffJournal(r.site, resuming, w, r.luck);
    }
    hide Handoff;
  }

  lemma {:induction false} WalkJournal(s: Site, steps: seq<Step>, luck: seq<Luck>)
    requires s.journal.Some? && s.marked
    ensures Walk(s, steps, luck).site.journal.Some? && Walk(s, steps, luck).site.marked
    decreases |steps|
  {
    if steps != [] && luck != [] && Hit(s, steps[0], luck[0]).1 {
      WalkJournal(Effect(s, steps[0]), steps[1..], luck[1..]);
    }
  }

  lemma HandoffJournal(s: Site, resuming: bool, w: World, luck: seq<Luck>)
    requires s == Site(Some(Prepared), OldUnit, Absent, true, s.base)
    ensures var t := Handoff(s, resuming, w, luck).site; t.marked && t.journal.Some?
  {
    HandoffKeeps(s, resuming, w, luck);
    var made := Walk(s, Provisioning(s, resuming, w.changed), luck);
    WalkJournal(s, Provisioning(s, resuming, w.changed), luck);
    WalkJournal(made.site, SwitchoverSteps(), made.luck);
    var r := Then(made, SwitchoverSteps());
    ProvisionOuter(resuming, Loads(s, w.changed));
    WalkOuter(s, Provisioning(s, resuming, w.changed), luck);
    SwitchoverAllowed(made.site);
    WalkSound(made.site, SwitchoverSteps(), made.luck);
    hide Provisioning, SwitchoverSteps, Recovered, Walk;
    RecoverKeeps(r.site, Intact(w), r.luck);
  }

  lemma CallKeeps(s: Site, c: Call, missing: nat)
    requires Sound(s) && Untouched(s, missing)
    ensures Sound(Called(s, c)) && Untouched(Called(s, c), missing)
  {
    if s.marked {
      MarkedStays(s, c);
    } else {
      hide Begun;
      match c
      case Apply(w, luck) =>
        MadeHome(s, luck);
        var made := Walk(s, [MakeHome], luck);
        if made.end.Fine? {
          BeginKeeps(made.site, false, w, made.luck);
          BegunJournal(made.site, false, w, made.luck);
        }
      case Resume(w, luck) =>
      case Recover(w, luck) =>
      case Reboot =>
    }
  }

  lemma {:induction false} CallsKeep(s: Site, calls: seq<Call>, missing: nat)
    requires Sound(s) && Untouched(s, missing)
    ensures Sound(CalledAll(s, calls)) && Untouched(CalledAll(s, calls), missing)
    decreases |calls|
  {
    hide Called;
    if calls != [] {
      CallKeeps(s, calls[0], missing);
      CallsKeep(Called(s, calls[0]), calls[1..], missing);
    }
  }

  /**
   * After any sequence of applies, resumes and boot recoveries, each cut off by power or errors
   * anywhere: a switched unit has its whole drop-in, `rolled_back` means the legacy unit alone,
   * `committed` means the new unit with its drop-in; and one undisturbed recovery settles the rest.
   */
  lemma MigrationSafe(missing: nat, calls: seq<Call>, luck: seq<Luck>)
    ensures var s := CalledAll(Legacy(missing), calls);
            && (s.unit == NewUnit ==> s.dropin == Whole)
            && (s.journal == Some(RolledBack) ==> s.unit == OldUnit && s.dropin == Absent)
            && (s.journal == Some(Committed) ==> s.unit == NewUnit && s.dropin == Whole)
            && (s.journal.None? ==> s.unit == OldUnit && s.dropin == Absent)
            && (s.journal.Some? && s.journal != Some(Committed) && Calm(luck, 20) ==>
                  Recovered(s, true, luck).site == Site(Some(RolledBack), OldUnit, Absent, true, s.base))
  {
    CallsKeep(Legacy(missing), calls, missing);
    var s := CalledAll(Legacy(missing), calls);
    hide Recovered;
    if s.journal.Some? && s.journal != Some(Committed) && Calm(luck, 20) {
      RecoverCompletes(s, luck);
    }
  }

  /** Changed originals are never used: nothing is switched back, and an operator is called. */
  lemma ChangedOriginals(s: Site, luck: seq<Luck>)
    ensures var r := Recovered(s, false, luck); var open := s.journal.Some? && s.journal.value !in {Committed, RolledBack};
            && r.site.(journal := s.journal) == s && r.site.journal in {s.journal, Some(ManualRecovery)}
            && (!open ==> r.site == s && r.end.Fine?)
            && (open ==> !r.end.Fine?)
            && (open && Calm(luck, 2) ==> r.site.journal == Some(ManualRecovery) && r.end.Raised?)
  {
    assert [Act(ReadOriginals)][1..] == [] && [Save(ManualRecovery)][1..] == [];
  }

  /** What leaves a site exactly as it was: an apply on any trace, a resume anywhere but after a clean rollback. */
  lemma RefusedCalls(s: Site, w: World, luck: seq<Luck>)
    ensures s.marked || s.journal.Some? ==> Applied(s, w, luck) == Ran(s, luck, Raised)
    ensures s.journal != Some(RolledBack) || s.unit == NewUnit || !w.legacy ==> Resumed(s, w, luck) == Ran(s, luck, Raised)
  {
    hide Begun;
  }

  /** A handoff that raises, whatever raised, is undone before it is reported, if nothing else goes wrong. */
  lemma FailureUndone(s: Site, resuming: bool, w: World, luck: seq<Luck>)
    requires s == Site(Some(Prepared), OldUnit, Absent, true, s.base) && w.legacy && w.saved
    ensures var r := Walk(s, Provisioning(s, resuming, w.changed) + SwitchoverSteps(), luck); var t := Handoff(s, resuming, w, luck);
            && (r.end.Fine? ==> t == r) && (r.end.PowerOff? ==> t == r)
            && (r.end.Raised? ==> !t.end.Fine?)
            && (r.end.Raised? && Calm(r.luck, 20) && r.site.journal != Some(Committed) ==>
                  t.end.Raised? && t.site == Site(Some(RolledBack), OldUnit, Absent, true, r.site.base))
  {
    var first, second := Provisioning(s, resuming, w.changed), SwitchoverSteps();
    var made := Walk(s, first, luck);
    ProvisionOuter(resuming, Loads(s, w.changed));
    WalkOuter(s, first, luck);
    SwitchoverAllowed(made.site);
    WalkSound(made.site, second, made.luck);
    WalkSplit(s, first, second, luck);
    WalkJournal(s, first, luck);
    WalkJournal(made.site, second, made.luck);
    hide Provisioning, SwitchoverSteps, Walk, Recovered;
    var r := Then(made, second);
    if r.end.Raised? && Calm(r.luck, 20) && r.site.journal != Some(Committed) {
      assert Sound(r.site);
      RecoverCompletes(r.site, r.luck);
    }
  }

  // ---- what is done before what -----------------------------------------------------------------------------------

  /** The steps that were done, in order, up to the first that raised or found no power. */
  function Doings(s: Site, steps: seq<Step>, luck: seq<Luck>): seq<Step>
    decreases |steps|
  {
    if steps == [] || luck == [] || !Hit(s, steps[0], luck[0]).1 then []
    else [steps[0]] + Doings(Effect(s, steps[0]), steps[1..], luck[1..])
  }

  lemma {:induction false} DoingsPrefix(s: Site, steps: seq<Step>, luck: seq<Luck>)
    ensures var done := Doings(s, steps, luck);
            done <= steps && (Walk(s, steps, luck).end.Fine? <==> done == steps)
    decreases |steps|
  {
    if steps != [] && luck != [] && Hit(s, steps[0], luck[0]).1 {
      DoingsPrefix(Effect(s, steps[0]), steps[1..], luck[1..]);
      var done := Doings(Effect(s, steps[0]), steps[1..], luck[1..]);
      assert steps == [steps[0]] + steps[1..];
      assert [steps[0]] + done <= [steps[0]] + steps[1..];
    } else if steps != [] {
      assert [] != steps;
    }
  }

  /** Whenever `later` is done, `earlier` was done before it. */
  predicate After(done: seq<Step>, earlier: Step, later: Step) {
    forall i | 0 <= i < |done| && done[i] == later :: earlier in done[..i]
  }

  lemma AfterPrefix(done: seq<Step>, steps: seq<Step>, earlier: Step, later: Step)
    requires done <= steps && After(steps, earlier, later)
    ensures After(done, earlier, later)
  {
    forall i | 0 <= i < |done| && done[i] == later ensures earlier in done[..i] {
      assert steps[..i] == done[..i];
    }
  }

  /** The order of a switch that may lose power anywhere. */
  predicate Ordered(done: seq<Step>) {
    && After(done, Act(StopBarrier), Act(ConfigBarrier))
    && After(done, Act(ConfigBarrier), CreateDropIn)
    && After(done, CreateDropIn, Install(NewUnit))
    && After(done, Install(NewUnit), Act(VerifyUnits))
    && After(done, Act(VerifyUnits), StartAgent)
    && After(done, StartAgent, Act(Healthy))
    && After(done, Act(Healthy), Act(EnableUnits))
    && After(done, Act(EnableUnits), Save(Committed))
  }

  /** In a list without repetition one position each is enough. */
  lemma AfterAt(steps: seq<Step>, i: nat, k: nat)
    requires i < k < |steps| && forall n | 0 <= n < |steps| && n != k :: steps[n] != steps[k]
    ensures After(steps, steps[i], steps[k])
  {
    assert steps[..k][i] == steps[i];
  }

  lemma AfterBehind(first: seq<Step>, steps: seq<Step>, earlier: Step, later: Step)
    requires After(steps, earlier, later) && later !in first
    ensures After(first + steps, earlier, later)
  {
    var all := first + steps;
    forall i | 0 <= i < |all| && all[i] == later ensures earlier in all[..i] {
      assert i >= |first| && steps[i - |first|] == later;
      assert all[..i] == first + steps[..i - |first|];
    }
  }

  lemma AfterFirst(first: seq<Step>, steps: seq<Step>, earlier: Step, later: Step)
    requires earlier in first && later !in first
    ensures After(first + steps, earlier, later)
  {
    var all := first + steps;
    forall i | 0 <= i < |all| && all[i] == later ensures earlier in all[..i] {
      assert i >= |first|;
      assert all[..i] == first + steps[..i - |first|];
    }
  }

  function Switch(): (steps: seq<Step>)
    ensures |steps| == 15 && forall i, k | 0 <= i < k < 15 :: steps[i] != steps[k]
  {
    [Save(Stopping), Act(StopBarrier), Act(ConfigBarrier), Save(Switching), Act(DropInDirectory), CreateDropIn,
     Install(NewUnit), Act(ReloadUnits), Act(VerifyUnits), Save(Trial), Act(ResetAgent), StartAgent, Act(Healthy),
     Act(EnableUnits), Save(Committed)]
  }

  lemma SwitchListed()
    ensures SwitchoverSteps() == Switch()
  {
  }

  lemma SwitchOrdered()
    ensures Ordered(SwitchoverSteps())
  {
    hide After, SwitchoverSteps;
    SwitchListed();
    var steps := Switch();
    AfterAt(steps, 1, 2);
    AfterAt(steps, 2, 5);
    AfterAt(steps, 5, 6);
    AfterAt(steps, 6, 8);
    AfterAt(steps, 8, 11);
    AfterAt(steps, 11, 12);
    AfterAt(steps, 12, 13);
    AfterAt(steps, 13, 14);
  }

  /** What a handoff does, if nothing raises, until power or an error ends it. */
  function Handed(s: Site, resuming: bool, w: World, luck: seq<Luck>): seq<Step> {
    Doings(s, Provisioning(s, resuming, w.changed) + SwitchoverSteps(), luck)
  }

  lemma {:induction false} CommitsLast(s: Site, steps: seq<Step>, luck: seq<Luck>)
    requires s.journal != Some(Committed) && steps != []
    requires forall i | 0 <= i < |steps| - 1 :: steps[i] != Save(Committed)
    ensures Walk(s, steps, luck).site.journal == Some(Committed) ==> |Doings(s, steps, luck)| >= |steps| - 1
    decreases |steps|
  {
    if |steps| > 1 && luck != [] && Hit(s, steps[0], luck[0]).1 {
      CommitsLast(Effect(s, steps[0]), steps[1..], luck[1..]);
    }
  }

  /** A list of provisioning steps that ends with the candidate's preflight. */
  predicate Provisions(steps: seq<Step>) {
    && Act(Preflight) in steps && Act(MatchBaseline) in steps
    && (forall i | 0 <= i < |steps| :: Outer(steps[i]))
    && forall d | d in {StopBarrier, ConfigBarrier, VerifyUnits, Healthy, EnableUnits} :: Act(d) !in steps
  }

  lemma PreflightIn(resuming: bool, n: nat)
    ensures Provisions(ProvisionSteps(resuming, n))
  {
    ProvisionOuter(resuming, n);
    NoBarrier(resuming, n);
    hide Layout, Programs, Units;
    var first, units := Provides(Layout() + Programs(), resuming), Provides(Units(), resuming);
    var trust, last := TrustSteps(resuming, n), Preflighting();
    assert last[2] == Act(Preflight) && trust[4 + n] == Act(MatchBaseline);
    assert Act(MatchBaseline) in trust + (units + last) && Act(Preflight) in trust + (units + last);
  }

  lemma NoBarrier(resuming: bool, n: nat)
    ensures forall d | d in {StopBarrier, ConfigBarrier, VerifyUnits, Healthy, EnableUnits} :: Act(d) !in ProvisionSteps(resuming, n)
  {
    hide Layout, Programs, Units;
  }

  /**
   * Wherever a handoff ends: the legacy agent is stopped only after the candidate was authenticated and its
   * preflight passed; the unit is switched only after the stop, the saved configuration and the drop-in; and
   * a commit needs verified units, the started agent, its authenticated health and the enabled timers.
   */
  lemma HandoffOrder(s: Site, resuming: bool, w: World, luck: seq<Luck>)
    requires s.journal == Some(Prepared)
    ensures var done := Handed(s, resuming, w, luck);
            && Ordered(done)
            && After(done, Act(MatchBaseline), Act(StopBarrier)) && After(done, Act(Preflight), Act(StopBarrier))
            && (Walk(s, Provisioning(s, resuming, w.changed) + SwitchoverSteps(), luck).site.journal == Some(Committed) ==>
                  Act(EnableUnits) in done)
  {
    var n := Loads(s, w.changed);
    var first, second := Provisioning(s, resuming, w.changed), SwitchoverSteps();
    assert first == ProvisionSteps(resuming, n);
    PreflightIn(resuming, n);
    hide Provisioning, ProvisionSteps, SwitchoverSteps, Doings, Walk, Ordered, After, Provisions;
    var all, done := first + second, Handed(s, resuming, w, luck);
    DoingsPrefix(s, all, luck);
    OrderedDone(first, done);
    if Walk(s, all, luck).site.journal == Some(Committed) {
      CommittedDone(s, first, luck);
    }
  }

  lemma CommittedDone(s: Site, first: seq<Step>, luck: seq<Luck>)
    requires s.journal == Some(Prepared) && Provisions(first)
    requires Walk(s, first + SwitchoverSteps(), luck).site.journal == Some(Committed)
    ensures Act(EnableUnits) in Doings(s, first + SwitchoverSteps(), luck)
  {
    hide SwitchoverSteps, Doings, Walk;
    SwitchListed();
    var all := first + SwitchoverSteps();
    var done := Doings(s, all, luck);
    DoingsPrefix(s, all, luck);
    forall i | 0 <= i < |all| - 1 ensures all[i] != Save(Committed) {
      if i >= |first| {
        assert all[i] == Switch()[i - |first|];
      }
    }
    CommitsLast(s, all, luck);
    assert all[|first| + 13] == Act(EnableUnits) && done[|first| + 13] == all[|first| + 13];
  }

  lemma OrderedDone(first: seq<Step>, done: seq<Step>)
    requires Provisions(first) && done <= first + SwitchoverSteps()
    ensures Ordered(done) && After(done, Act(MatchBaseline), Act(StopBarrier)) && After(done, Act(Preflight), Act(StopBarrier))
  {
    hide After, SwitchoverSteps;
    SwitchOrdered();
    var second := SwitchoverSteps();
    Behind(first, second, done, Act(StopBarrier), Act(ConfigBarrier));
    Behind(first, second, done, Act(ConfigBarrier), CreateDropIn);
    Behind(first, second, done, CreateDropIn, Install(NewUnit));
    Behind(first, second, done, Install(NewUnit), Act(VerifyUnits));
    Behind(first, second, done, Act(VerifyUnits), StartAgent);
    Behind(first, second, done, StartAgent, Act(Healthy));
    Behind(first, second, done, Act(Healthy), Act(EnableUnits));
    Behind(first, second, done, Act(EnableUnits), Save(Committed));
    AfterFirst(first, second, Act(MatchBaseline), Act(StopBarrier));
    AfterFirst(first, second, Act(Preflight), Act(StopBarrier));
    AfterPrefix(done, first + second, Act(MatchBaseline), Act(StopBarrier));
    AfterPrefix(done, first + second, Act(Preflight), Act(StopBarrier));
  }

  lemma Behind(first: seq<Step>, steps: seq<Step>, done: seq<Step>, earlier: Step, later: Step)
    requires After(steps, earlier, later) && later !in first && done <= first + steps
    ensures After(done, earlier, later)
  {
    AfterBehind(first, steps, earlier, later);
    AfterPrefix(done, first + steps, earlier, later);
  }

  /**
   * Wherever a recovery ends: the legacy unit comes back only after the units were disabled, the agent stopped
   * and its configuration saved; the drop-in goes only after it; and only then is the migration rolled back.
   */
  lemma RecoveryOrder(s: Site, luck: seq<Luck>)
    ensures var done := Doings(s, UndoSteps(s.unit), luck);
            && After(done, Act(DisableUnits), RemoveDropIn)
            && After(done, Act(DisableUnits), Install(OldUnit))
            && After(done, Act(StopBarrier), Act(ConfigBarrier)) && After(done, Act(ConfigBarrier), Install(OldUnit))
            && (s.unit == NewUnit ==> After(done, Install(OldUnit), RemoveDropIn))
            && After(done, RemoveDropIn, Act(ReloadUnits)) && After(done, Act(ReloadUnits), Save(RolledBack))
            && After(done, Save(RolledBack), Act(RequestAgent))
  {
    var steps, done := UndoSteps(s.unit), Doings(s, UndoSteps(s.unit), luck);
    DoingsPrefix(s, steps, luck);
    UndoOrdered(s.unit);
    hide After, UndoSteps, Doings;
    AfterPrefix(done, steps, Act(DisableUnits), RemoveDropIn);
    AfterPrefix(done, steps, Act(DisableUnits), Install(OldUnit));
    AfterPrefix(done, steps, Act(StopBarrier), Act(ConfigBarrier));
    AfterPrefix(done, steps, Act(ConfigBarrier), Install(OldUnit));
    if s.unit == NewUnit {
      AfterPrefix(done, steps, Install(OldUnit), RemoveDropIn);
    }
    AfterPrefix(done, steps, RemoveDropIn, Act(ReloadUnits));
    AfterPrefix(done, steps, Act(ReloadUnits), Save(RolledBack));
    AfterPrefix(done, steps, Save(RolledBack), Act(RequestAgent));
  }

  function Undo(): (steps: seq<Step>)
    ensures |steps| == 12 && forall i, k | 0 <= i < k < 12 :: steps[i] != steps[k]
  {
    [Act(DisableUnits), Act(StopUnits), Act(ReadUnit), Act(StopBarrier), Act(ConfigBarrier), Install(OldUnit), RemoveDropIn,
     Act(SyncDropIn), Act(ReloadUnits), Act(ResetAgent), Save(RolledBack), Act(RequestAgent)]
  }

  lemma UndoListed()
    ensures UndoSteps(NewUnit) == Undo() && UndoSteps(OldUnit) == Undo()[..3] + Undo()[6..]
  {
  }

  lemma UndoOrdered(unit: Unit)
    ensures var steps := UndoSteps(unit);
            && After(steps, Act(DisableUnits), RemoveDropIn)
            && After(steps, Act(DisableUnits), Install(OldUnit))
            && After(steps, Act(StopBarrier), Act(ConfigBarrier)) && After(steps, Act(ConfigBarrier), Install(OldUnit))
            && (unit == NewUnit ==> After(steps, Install(OldUnit), RemoveDropIn))
            && After(steps, RemoveDropIn, Act(ReloadUnits)) && After(steps, Act(ReloadUnits), Save(RolledBack))
            && After(steps, Save(RolledBack), Act(RequestAgent))
  {
    hide After, UndoSteps;
    UndoListed();
    var all := Undo();
    if unit == NewUnit {
      AfterAt(all, 0, 6);
      AfterAt(all, 0, 5);
      AfterAt(all, 3, 4);
      AfterAt(all, 4, 5);
      AfterAt(all, 5, 6);
      AfterAt(all, 6, 8);
      AfterAt(all, 8, 10);
      AfterAt(all, 10, 11);
    } else {
      var few := all[..3] + all[6..];
      FewApart(all, few);
      AfterAt(few, 0, 3);
      AfterAt(few, 3, 5);
      AfterAt(few, 5, 7);
      AfterAt(few, 7, 8);
      Never(few, Act(DisableUnits), Install(OldUnit));
      Never(few, Act(StopBarrier), Act(ConfigBarrier));
      Never(few, Act(ConfigBarrier), Install(OldUnit));
    }
  }

  lemma FewApart(all: seq<Step>, few: seq<Step>)
    requires all == Undo() && few == all[..3] + all[6..]
    ensures |few| == 9 && (forall i, k | 0 <= i < k < 9 :: few[i] != few[k])
    ensures forall k | 3 <= k < 6 :: all[k] !in few
    ensures few[0] == all[0] && few[3] == all[6] && few[5] == all[8] && few[7] == all[10] && few[8] == all[11]
  {
    hide Undo;
    assert forall i | 0 <= i < 9 :: few[i] == all[if i < 3 then i else i + 3];
  }

  lemma Never(steps: seq<Step>, earlier: Step, later: Step)
    requires later !in steps
    ensures After(steps, earlier, later)
  {
  }

  // ---- whether a site can still be migrated ----------------------------------------------------------------------

  /** No later attempt can be provisioned: an unfinished item, lost or shut trust, or no room for the updater's metadata. */
  predicate Spoiled(b: Base) {
    || (exists i | 0 <= i < |Listed()| :: InTheWay(b, Listed()[i], true))
    || (b.started && !b.enrolled)
    || b.shut
    || Tight(b)
  }

  lemma SpoiledIff(b: Base)
    ensures Spoiled(b) <==> !Provisionable(b, true, b.missing)
  {
    hide Listed, InTheWay;
  }

  lemma SpoiledMore(b: Base, n: nat)
    requires Spoiled(b) && n >= b.missing
    ensures !Provisionable(b, true, n)
  {
    hide Listed, InTheWay;
  }

  /** What spoils a resumed attempt is still there after it. */
  lemma SpoiledStays(s: Site, n: nat, luck: seq<Luck>)
    requires Spoiled(s.base)
    ensures Spoiled(Walk(s, ProvisionSteps(true, n), luck).site.base)
  {
    var steps := ProvisionSteps(true, n);
    if k :| 0 <= k < |Listed()| && InTheWay(s.base, Listed()[k], true) {
      ProvisionProvides(true, n, k);
      hide ProvisionSteps, Listed, InTheWay;
      WalkMeets(s, steps, luck, Listed()[k], true);
    } else if s.base.started && !s.base.enrolled {
      TrustComesFirst(n);
      var early := [Act(Accounts)] + Provides(Layout() + Programs(), true);
      var rest := TrustSteps(true, n)[1..] + (Provides(Units(), true) + Preflighting());
      hide ProvisionSteps, Listed, Layout, Programs, Units, TrustSteps;
      WalkDistrusts(s, early, rest, luck);
    } else if s.base.shut {
      ProvisionEnrolls(true, n);
      hide ProvisionSteps, Listed;
      WalkShut(s, steps, luck);
    } else {
      hide ProvisionSteps, Listed;
      WalkFills(s, steps, luck);
    }
  }

  /** No call will ever complete this migration. */
  predicate Doomed(s: Site) {
    && s.journal != Some(Committed)
    && (if s.journal.Some? then Spoiled(s.base) else s.marked || Tight(s.base))
  }

  /** A resumed attempt on a spoiled base, from its new journal on. */
  lemma ResumeDoomed(s: Site, w: World, luck: seq<Luck>)
    requires s == Site(Some(Prepared), OldUnit, Absent, true, s.base) && Spoiled(s.base)
    ensures Doomed(Handoff(s, true, w, luck).site)
  {
    var n := Loads(s, w.changed);
    assert Provisioning(s, true, w.changed) == ProvisionSteps(true, n);
    hide ProvisionSteps, Handoff, Spoiled, Provisionable, Walk;
    SpoiledMore(s.base, n);
    ProvisionFails(s, true, n, luck);
    SpoiledStays(s, n, luck);
    FailedStays(s, true, w, luck);
  }

  /** A first attempt that the updater has no room for. */
  lemma ApplyDoomed(s: Site, w: World, luck: seq<Luck>)
    requires s == Site(Some(Prepared), OldUnit, Absent, true, s.base) && Tight(s.base)
    ensures Doomed(Handoff(s, false, w, luck).site)
  {
    var n := Loads(s, w.changed);
    assert Provisioning(s, false, w.changed) == ProvisionSteps(false, n);
    assert !Provisionable(s.base, false, n);
    hide ProvisionSteps, Handoff, Provisionable, Walk, Listed;
    ProvisionFails(s, false, n, luck);
    WalkFills(s, ProvisionSteps(false, n), luck);
    FailedStays(s, false, w, luck);
  }

  lemma BegunDoomed(s: Site, resuming: bool, w: World, luck: seq<Luck>)
    requires Sound(s) && s.marked && s.journal == (if resuming then Some(RolledBack) else None)
    requires if resuming then Spoiled(s.base) else Tight(s.base)
    ensures Doomed(Begun(s, resuming, w, luck).site)
  {
    BeginKeeps(s, resuming, w, luck);
    assert [Act(KeepRecords), Save(Prepared)][1..] == [Save(Prepared)] && [Save(Prepared)][1..] == [];
    var r := Walk(s, [Act(KeepRecords), Save(Prepared)], luck);
    assert r.site.marked && r.site.journal in {s.journal, Some(Prepared)};
    hide Handoff, Walk, Spoiled;
    assert Tight(s.base) ==> Spoiled(s.base) by {
      TightSpoils(s.base);
    }
    if r.end.Fine? {
      if resuming {
        ResumeDoomed(r.site, w, r.luck);
      } else {
        ApplyDoomed(r.site, w, r.luck);
      }
    }
  }

  lemma TightSpoils(b: Base)
    ensures Tight(b) ==> Spoiled(b)
  {
    hide Listed, InTheWay;
  }

  lemma DoomedStays(s: Site, c: Call, missing: nat)
    requires Sound(s) && Untouched(s, missing) && Doomed(s)
    ensures Doomed(Called(s, c))
  {
    hide Begun, Recovered, Spoiled;
    match c
    case Apply(w, luck) =>
      if s.journal.None? && !s.marked {
        MadeHome(s, luck);
        var made := Walk(s, [MakeHome], luck);
        if made.end.Fine? {
          BegunDoomed(made.site, false, w, made.luck);
        }
      }
    case Resume(w, luck) =>
      if s.journal == Some(RolledBack) {
        BegunDoomed(s, true, w, luck);
      }
    case Recover(w, luck) => RecoverKeeps(s, Intact(w), luck);
    case Reboot => ShutSpoils(Called(s, c).base);
  }

  lemma ShutSpoils(b: Base)
    ensures b.shut ==> Spoiled(b)
  {
    hide Listed, InTheWay;
  }

  lemma {:induction false} DoomedForever(s: Site, calls: seq<Call>, missing: nat)
    requires Sound(s) && Untouched(s, missing) && Doomed(s)
    ensures Doomed(CalledAll(s, calls))
    decreases |calls|
  {
    hide Called, Doomed;
    if calls != [] {
      DoomedStays(s, calls[0], missing);
      CallKeeps(s, calls[0], missing);
      DoomedForever(Called(s, calls[0]), calls[1..], missing);
    }
  }

  function Dones(n: nat): (luck: seq<Luck>)
    ensures Calm(luck, n) && |luck| == n
  {
    seq(n, i => Done)
  }

  /** Originals intact, metadata as it was. */
  const WELL := World(true, true, 0)

  lemma BegunCommits(s: Site, resuming: bool, luck: seq<Luck>)
    requires Sound(s) && s.journal in {None, Some(RolledBack)} && s.marked && Calm(luck, 62 + s.base.missing)
    requires Provisionable(s.base, resuming, s.base.missing)
    ensures Begun(s, resuming, WELL, luck).site.journal == Some(Committed)
  {
    BeginKeeps(s, resuming, WELL, luck);
    assert [Act(KeepRecords), Save(Prepared)][1..] == [Save(Prepared)] && [Save(Prepared)][1..] == [];
    var r := Walk(s, [Act(KeepRecords), Save(Prepared)], luck);
    assert r == Ran(s.(journal := Some(Prepared)), luck[1..][1..], Fine);
    assert luck[1..][1..] == luck[2..] && Calm(luck[2..], 60 + s.base.missing);
    hide Handoff, Sound, Provisionable, Walk;
    HandoffCommitsIff(r.site, resuming, WELL, luck[2..]);
  }

  lemma ApplyCommits(missing: nat)
    requires !Tight(Bare(missing))
    ensures Called(Legacy(missing), Apply(WELL, Dones(63 + missing))).journal == Some(Committed)
  {
    var luck := Dones(63 + missing);
    var made := Legacy(missing).(marked := true);
    assert [MakeHome][1..] == [];
    assert Walk(Legacy(missing), [MakeHome], luck) == Ran(made, luck[1..], Fine);
    assert Provisionable(made.base, false, missing) by {
      hide Listed;
    }
    hide Begun, Provisionable, Walk;
    BegunCommits(made, false, luck[1..]);
  }

  lemma CalledTwo(s: Site, a: Call, b: Call)
    ensures CalledAll(s, [a]) == Called(s, a)
    ensures CalledAll(s, [a, b]) == Called(Called(s, a), b)
  {
    hide Called;
    assert [a][1..] == [] && [a, b][1..] == [b] && [b][1..] == [];
    assert CalledAll(Called(s, a), [b]) == CalledAll(Called(Called(s, a), b), []);
  }

  lemma RetryCommits(s: Site)
    requires Sound(s) && s.journal.Some? && s.journal != Some(Committed) && !Spoiled(s.base)
    ensures var luck := Dones(62 + s.base.missing);
            CalledAll(s, [Recover(WELL, luck), Resume(WELL, luck)]).journal == Some(Committed)
  {
    var luck := Dones(62 + s.base.missing);
    hide Begun, Recovered, Spoiled, Provisionable;
    SpoiledIff(s.base);
    RecoverCompletes(s, luck);
    CalledTwo(s, Recover(WELL, luck), Resume(WELL, luck));
    BegunCommits(Called(s, Recover(WELL, luck)), true, luck);
  }

  predicate Completes(s: Site, more: seq<Call>) {
    CalledAll(s, more).journal == Some(Committed)
  }

  /**
   * Whatever has been tried and wherever it was cut off: some further calls complete the migration, unless
   * its directory exists without a journal, an unfinished file or directory of an earlier attempt is in
   * the way, trust processing began without leaving the updater's journal, the updater has called an operator
   * or enrolled at epoch zero, or failed attempts have filled its metadata store. Then none ever does.
   */
  lemma CommitReachableIff(missing: nat, calls: seq<Call>)
    ensures var s := CalledAll(Legacy(missing), calls);
            (exists more: seq<Call> :: Completes(s, more))
            <==> s.journal == Some(Committed) || (if s.journal.Some? then !Spoiled(s.base) else !s.marked && !Tight(s.base))
  {
    var s := CalledAll(Legacy(missing), calls);
    CallsKeep(Legacy(missing), calls, missing);
    hide Spoiled, Sound;
    if s.journal == Some(Committed) {
      var none: seq<Call> := [];
      assert Completes(s, none);
    } else if Doomed(s) {
      forall more: seq<Call> ensures !Completes(s, more) {
        DoomedForever(s, more, missing);
      }
    } else if s.journal.None? {
      assert s == Legacy(missing);
      ApplyCommits(missing);
      var more := [Apply(WELL, Dones(63 + missing))];
      CalledTwo(s, more[0], more[0]);
      assert Completes(s, more);
    } else {
      RetryCommits(s);
      assert Completes(s, [Recover(WELL, Dones(62 + s.base.missing)), Resume(WELL, Dones(62 + s.base.missing))]);
    }
  }

  // ---- how a site gets there -----------------------------------------------------------------------------------------

  /** Losing power right after `mkdir` is enough. */
  lemma AbandonedFirst(missing: nat)
    ensures CalledAll(Legacy(missing), [Apply(WELL, Dones(1))]) == Legacy(missing).(marked := true)
  {
    var s := Legacy(missing);
    var made := s.(marked := true);
    assert [MakeHome][1..] == [] && Dones(1)[1..] == [];
    assert Walk(s, [MakeHome], Dones(1)) == Ran(made, [], Fine);
    assert Walk(made, [Act(KeepRecords), Save(Prepared)], []) == Ran(made, [], PowerOff);
    CalledTwo(s, Apply(WELL, Dones(1)), Apply(WELL, Dones(1)));
  }

  lemma {:induction false} WalkSplit(s: Site, a: seq<Step>, b: seq<Step>, luck: seq<Luck>)
    ensures Walk(s, a + b, luck) == Then(Walk(s, a, luck), b)
    decreases |a|
  {
    if a == [] {
      assert a + b == b;
    } else {
      assert (a + b)[1..] == a[1..] + b;
      if luck != [] && Hit(s, a[0], luck[0]).1 {
        WalkSplit(Effect(s, a[0]), a[1..], b, luck[1..]);
      }
    }
  }

  /** The power goes between two steps. */
  lemma CutBetween(s: Site, a: seq<Step>, b: seq<Step>)
    requires Unblocked(s, a) && b != []
    ensures Walk(s, a + b, Dones(|a|)) == Ran(Effects(s, a), [], PowerOff)
  {
    WalkSplit(s, a, b, Dones(|a|));
    WalkCalm(s, a, Dones(|a|));
    assert Dones(|a|)[|a|..] == [];
  }

  /** One step is cut short, and then the power goes. */
  lemma CutShort(s: Site, a: seq<Step>, step: Step, b: seq<Step>)
    requires Unblocked(s, a) && !Blocked(Effects(s, a), step)
    ensures Walk(s, a + ([step] + b), Dones(|a|) + [Partial]) == Ran(Partly(Effects(s, a), step), [], Raised)
  {
    var luck := Dones(|a|) + [Partial];
    WalkSplit(s, a, [step] + b, luck);
    assert forall i | 0 <= i < |a| :: luck[i].Done?;
    WalkPrefix(s, a, luck);
    assert luck[|a|..] == [Partial] && [Partial][1..] == [];
  }

  lemma {:induction false} WalkPrefix(s: Site, steps: seq<Step>, luck: seq<Luck>)
    requires |luck| >= |steps| && (forall i | 0 <= i < |steps| :: luck[i].Done?) && Unblocked(s, steps)
    ensures Walk(s, steps, luck) == Ran(Effects(s, steps), luck[|steps|..], Fine)
    decreases |steps|
  {
    if steps == [] {
      assert luck[0..] == luck;
    } else {
      WalkPrefix(Effect(s, steps[0]), steps[1..], luck[1..]);
      assert luck[1..][|steps| - 1..] == luck[|steps|..];
    }
  }

  function Opened(s: Site): Site {
    s.(journal := Some(Prepared))
  }

  /** The first steps of an attempt, undisturbed. */
  lemma BegunOpens(s: Site, resuming: bool, luck: seq<Luck>)
    requires |luck| >= 2 && luck[0].Done? && luck[1].Done?
    ensures Begun(s, resuming, WELL, luck) == Handoff(Opened(s), resuming, WELL, luck[2..])
  {
    hide Handoff;
    assert [Act(KeepRecords), Save(Prepared)][1..] == [Save(Prepared)] && [Save(Prepared)][1..] == [];
    assert luck[1..][1..] == luck[2..];
    assert Walk(s, [Act(KeepRecords), Save(Prepared)], luck) == Ran(Opened(s), luck[2..], Fine);
  }

  lemma ApplyOpens(missing: nat, luck: seq<Luck>)
    requires |luck| >= 3 && luck[0].Done? && luck[1].Done? && luck[2].Done?
    ensures var made := Legacy(missing).(marked := true);
            Called(Legacy(missing), Apply(WELL, luck)) == Handoff(Opened(made), false, WELL, luck[3..]).site
  {
    hide Begun, Handoff;
    var made := Legacy(missing).(marked := true);
    assert [MakeHome][1..] == [];
    assert Walk(Legacy(missing), [MakeHome], luck) == Ran(made, luck[1..], Fine);
    assert luck[1..][2..] == luck[3..];
    BegunOpens(made, false, luck[1..]);
  }

  /** Provisioning stops and the power stays away: the site keeps what it has. */
  lemma HandoffStops(s: Site, resuming: bool, luck: seq<Luck>)
    requires s.journal == Some(Prepared)
    requires var r := Walk(s, ProvisionSteps(resuming, s.base.missing), luck); !r.end.Fine? && r.luck == [] && r.site.journal == s.journal
    ensures Handoff(s, resuming, WELL, luck).site == Walk(s, ProvisionSteps(resuming, s.base.missing), luck).site
  {
    hide ProvisionSteps;
    assert Provisioning(s, resuming, 0) == ProvisionSteps(resuming, s.base.missing);
    var r := Walk(s, ProvisionSteps(resuming, s.base.missing), luck);
    hide Walk, Provisioning;
    if r.end.Raised? {
      assert Walk(r.site, [Act(ReadOriginals)], []) == Ran(r.site, [], PowerOff) by {
        NoPower(r.site, [Act(ReadOriginals)]);
      }
    }
  }

  lemma NoPower(s: Site, steps: seq<Step>)
    requires steps != []
    ensures Walk(s, steps, []) == Ran(s, [], PowerOff)
  {
  }

  /** The steps of provisioning up to the updater's first own write. */
  function Early(resuming: bool): seq<Step> {
    [Act(Accounts)] + Provides(Layout() + Programs(), resuming)
  }

  lemma EarlyUnblocked(s: Site, resuming: bool)
    requires forall i | 0 <= i < |Listed()| :: !InTheWay(s.base, Listed()[i], resuming)
    ensures |Early(resuming)| == 13 && Unblocked(s, Early(resuming))
    ensures Effects(s, Early(resuming)) == s.(base := Provided(s.base, Layout() + Programs()))
  {
    ListedDistinct();
    var early := Layout() + Programs();
    assert forall i | 0 <= i < 12 :: early[i] == Listed()[i];
    hide Layout, Programs, Units, Listed, Unblocked, Effects;
    ProvidesUnblocked(s, early, resuming);
    FreeUnblocked(s, [Act(Accounts)]);
    EffectOne(s, Act(Accounts));
    UnblockedConcat(s, [Act(Accounts)], Provides(early, resuming));
    EffectsConcat(s, [Act(Accounts)], Provides(early, resuming));
  }

  lemma AfterEarly(resuming: bool, n: nat)
    ensures ProvisionSteps(resuming, n)
            == Early(resuming) + (TrustSteps(resuming, n) + (Provides(Units(), resuming) + Preflighting()))
  {
    hide Layout, Programs, Units, TrustSteps;
    var a, b := Provides(Layout() + Programs(), resuming), TrustSteps(resuming, n) + (Provides(Units(), resuming) + Preflighting());
    assert [Act(Accounts)] + (a + b) == ([Act(Accounts)] + a) + b;
  }

  /** Recovered in peace: the legacy agent runs, the migration is rolled back, the base is as it was. */
  lemma CutThenRecovered(missing: nat, apply: Call)
    requires var s := Called(Legacy(missing), apply); s.journal.Some? && s.journal != Some(Committed)
    ensures var s := Called(Legacy(missing), apply);
            CalledAll(Legacy(missing), [apply, Recover(WELL, Dones(20))]) == Site(Some(RolledBack), OldUnit, Absent, true, s.base)
  {
    hide Called, Recovered;
    CallKeeps(Legacy(missing), apply, missing);
    CalledTwo(Legacy(missing), apply, Recover(WELL, Dones(20)));
    var s := Called(Legacy(missing), apply);
    assert Called(s, Recover(WELL, Dones(20))) == Recovered(s, true, Dones(20)).site by {
      RecoverCall(s);
    }
    RecoverCompletes(s, Dones(20));
  }

  lemma RecoverCall(s: Site)
    ensures Called(s, Recover(WELL, Dones(20))) == Recovered(s, true, Dones(20)).site
  {
    hide Recovered;
  }

  lemma BareProvides(missing: nat, s: Site)
    requires s.base == Bare(missing)
    ensures forall i | 0 <= i < |Listed()| :: !InTheWay(s.base, Listed()[i], false)
  {
    hide Listed;
  }

  function FirstAttempt(missing: nat): Site {
    Opened(Legacy(missing).(marked := true))
  }

  /** A first attempt whose power goes after `done` of its provisioning. */
  lemma ApplyCut(missing: nat, done: seq<Step>, rest: seq<Step>)
    requires ProvisionSteps(false, missing) == done + rest && rest != []
    requires Unblocked(FirstAttempt(missing), done) && Effects(FirstAttempt(missing), done).journal == Some(Prepared)
    ensures Called(Legacy(missing), Apply(WELL, Dones(3 + |done|))) == Effects(FirstAttempt(missing), done)
  {
    hide ProvisionSteps, Unblocked, Effects, Walk, Handoff, Called;
    var luck := Dones(3 + |done|);
    ApplyOpens(missing, luck);
    assert luck[3..] == Dones(|done|);
    CutBetween(FirstAttempt(missing), done, rest);
    HandoffStops(FirstAttempt(missing), false, Dones(|done|));
  }

  lemma TrustNext(resuming: bool, n: nat)
    ensures var two := [CheckTrust(resuming), StartTrust];
            var rest := [Enroll, Generation] + (Publications(n) + [Act(MatchBaseline)]) + (Provides(Units(), resuming) + Preflighting());
            rest != [] && ProvisionSteps(resuming, n) == (Early(resuming) + two) + rest
  {
    AfterEarly(resuming, n);
    var two := [CheckTrust(resuming), StartTrust];
    var rest := [Enroll, Generation] + (Publications(n) + [Act(MatchBaseline)]) + (Provides(Units(), resuming) + Preflighting());
    assert TrustSteps(resuming, n) + (Provides(Units(), resuming) + Preflighting()) == two + rest;
    hide Early, TrustSteps, ProvisionSteps, Units;
    assert Early(resuming) + (two + rest) == (Early(resuming) + two) + rest;
  }

  /** Power lost after `trust-started` is created and before the updater's journal is. */
  lemma TrustCutOff(missing: nat)
    ensures var s := CalledAll(Legacy(missing), [Apply(WELL, Dones(18)), Recover(WELL, Dones(20))]);
            && s.journal == Some(RolledBack) && s.unit == OldUnit
            && s.base.started && !s.base.enrolled && !s.base.shut && s.base.cut == {} && Spoiled(s.base)
  {
    hide Unblocked, Effects, Early, ProvisionSteps, TrustSteps, Units, Layout, Programs, Called, CalledAll, Listed, InTheWay;
    var begun := FirstAttempt(missing);
    BareProvides(missing, begun);
    EarlyUnblocked(begun, false);
    var two := [CheckTrust(false), StartTrust];
    TrustChecked(Effects(begun, Early(false)), false);
    TrustNext(false, missing);
    UnblockedConcat(begun, Early(false), two);
    EffectsConcat(begun, Early(false), two);
    var rest := [Enroll, Generation] + (Publications(missing) + [Act(MatchBaseline)]) + (Provides(Units(), false) + Preflighting());
    ApplyCut(missing, Early(false) + two, rest);
    CutThenRecovered(missing, Apply(WELL, Dones(18)));
  }

  /** The trust anchor is cut short while it is created. */
  lemma FileCutOff(missing: nat)
    ensures var s := CalledAll(Legacy(missing), [Apply(WELL, Dones(12) + [Partial]), Recover(WELL, Dones(20))]);
            && s.journal == Some(RolledBack) && s.unit == OldUnit
            && s.base.cut == {Anchor} && !s.base.started && !s.base.shut && Spoiled(s.base)
  {
    var luck := Dones(12) + [Partial];
    ApplyOpens(missing, luck);
    var begun := Opened(Legacy(missing).(marked := true));
    assert luck[3..] == Dones(9) + [Partial];
    var a := [Act(Accounts)] + Provides(Layout(), false);
    LayoutUnblocked(begun, missing);
    LayoutProvided(begun, missing);
    AnchorNext(missing);
    var rest := ProvisionSteps(false, missing)[10..];
    hide Unblocked, Effects, Walk, Handoff, ProvisionSteps;
    CutShort(begun, a, Provide(Anchor, false), rest);
    HandoffStops(begun, false, Dones(9) + [Partial]);
    var s := Called(Legacy(missing), Apply(WELL, luck));
    assert s.base.cut == {Anchor} && !s.base.started;
    AnchorSpoils(s.base);
    hide Called, CalledAll, Spoiled;
    CutThenRecovered(missing, Apply(WELL, luck));
  }

  lemma LayoutUnblocked(s: Site, missing: nat)
    requires s.base == Bare(missing)
    ensures var a := [Act(Accounts)] + Provides(Layout(), false);
            |a| == 9 && Unblocked(s, a) && Effects(s, a) == s.(base := Provided(s.base, Layout()))
  {
    hide Unblocked, Effects, Layout, Provided;
    LayoutDistinct();
    ProvidesUnblocked(s, Layout(), false);
    FreeUnblocked(s, [Act(Accounts)]);
    EffectOne(s, Act(Accounts));
    UnblockedConcat(s, [Act(Accounts)], Provides(Layout(), false));
    EffectsConcat(s, [Act(Accounts)], Provides(Layout(), false));
  }

  /** The directories are there, the trust anchor is not. */
  lemma LayoutProvided(s: Site, missing: nat)
    requires s.base == Bare(missing)
    ensures var t := s.(base := Provided(s.base, Layout()));
            t.base.cut == {} && !t.base.started && !Blocked(t, Provide(Anchor, false))
  {
    assert Anchor !in Layout();
  }

  lemma LayoutDistinct()
    ensures |Layout()| == 8 && Distinct(Layout())
  {
    Placed();
    assert forall i | 0 <= i < 8 :: Layout()[i] == (Layout() + Programs())[i];
  }

  lemma AnchorNext(missing: nat)
    ensures var steps := ProvisionSteps(false, missing); var a := [Act(Accounts)] + Provides(Layout(), false);
            |steps| >= 10 && steps == a + ([Provide(Anchor, false)] + steps[10..])
  {
    var steps := ProvisionSteps(false, missing);
    var a := [Act(Accounts)] + Provides(Layout(), false);
    assert forall i | 0 <= i < 8 :: (Layout() + Programs())[i] == Layout()[i];
    assert (Layout() + Programs())[8] == Anchor;
    assert steps[..9] == a && steps[9] == Provide(Anchor, false);
    assert steps == steps[..9] + ([steps[9]] + steps[10..]);
  }

  lemma AnchorSpoils(b: Base)
    requires Anchor in b.cut
    ensures Spoiled(b)
  {
    assert Listed()[8] == Anchor;
    assert InTheWay(b, Listed()[8], true);
  }

  // Attempts that fail after the updater has made a generation fill its store.

  lemma GenerationNext(resuming: bool, n: nat)
    ensures var four := [CheckTrust(resuming), StartTrust, Enroll, Generation];
            var rest := (Publications(n) + [Act(MatchBaseline)]) + (Provides(Units(), resuming) + Preflighting());
            rest != [] && ProvisionSteps(resuming, n) == (Early(resuming) + four) + rest
  {
    AfterEarly(resuming, n);
    var four := [CheckTrust(resuming), StartTrust, Enroll, Generation];
    var rest := (Publications(n) + [Act(MatchBaseline)]) + (Provides(Units(), resuming) + Preflighting());
    assert TrustSteps(resuming, n) + (Provides(Units(), resuming) + Preflighting()) == four + rest;
    hide Early, TrustSteps, ProvisionSteps, Units;
    assert Early(resuming) + (four + rest) == (Early(resuming) + four) + rest;
  }

  /** Rolled back after attempts that got as far as the updater's `stock`-th generation; nothing else is wrong. */
  predicate Stocked(s: Site, stock: nat, missing: nat) {
    && s.journal == Some(RolledBack) && s.unit == OldUnit && s.dropin == Absent && s.marked
    && s.base.started && s.base.enrolled && !s.base.shut && s.base.cut == {} && s.base.stock == stock && s.base.missing == missing
  }

  lemma UncutProvides(b: Base)
    requires b.cut == {}
    ensures forall i | 0 <= i < |Listed()| :: !InTheWay(b, Listed()[i], true)
  {
    hide Listed;
  }

  lemma StockFirst(missing: nat)
    ensures Stocked(CalledAll(Legacy(missing), [Apply(WELL, Dones(20)), Recover(WELL, Dones(20))]), 1, missing)
  {
    hide Unblocked, Effects, Early, ProvisionSteps, TrustSteps, Units, Layout, Programs, Called, CalledAll, Listed, InTheWay;
    var begun := FirstAttempt(missing);
    BareProvides(missing, begun);
    EarlyUnblocked(begun, false);
    var four := [CheckTrust(false), StartTrust, Enroll, Generation];
    TrustBegins(Effects(begun, Early(false)), false);
    GenerationNext(false, missing);
    UnblockedConcat(begun, Early(false), four);
    EffectsConcat(begun, Early(false), four);
    var rest := (Publications(missing) + [Act(MatchBaseline)]) + (Provides(Units(), false) + Preflighting());
    ApplyCut(missing, Early(false) + four, rest);
    CutThenRecovered(missing, Apply(WELL, Dones(20)));
  }

  lemma ResumeCut(s: Site, done: seq<Step>, rest: seq<Step>)
    requires s.journal == Some(RolledBack) && s.unit == OldUnit
    requires ProvisionSteps(true, s.base.missing) == done + rest && rest != []
    requires Unblocked(Opened(s), done) && Effects(Opened(s), done).journal == Some(Prepared)
    ensures Called(s, Resume(WELL, Dones(2 + |done|))) == Effects(Opened(s), done)
  {
    hide ProvisionSteps, Unblocked, Effects, Walk, Handoff, Begun;
    var luck := Dones(2 + |done|);
    BegunOpens(s, true, luck);
    assert luck[2..] == Dones(|done|);
    CutBetween(Opened(s), done, rest);
    HandoffStops(Opened(s), true, Dones(|done|));
  }

  lemma StockResumed(s: Site, stock: nat, missing: nat)
    requires Stocked(s, stock, missing) && stock < QUOTA
    ensures var t := Called(s, Resume(WELL, Dones(19)));
            && t == Opened(s).(base := t.base)
            && t.base.started && t.base.enrolled && !t.base.shut && t.base.cut == {}
            && t.base.stock == stock + 1 && t.base.missing == missing
  {
    hide Unblocked, Effects, Early, ProvisionSteps, Units, Layout, Programs, Called, Listed, InTheWay;
    var begun := Opened(s);
    UncutProvides(begun.base);
    EarlyUnblocked(begun, true);
    var four := [CheckTrust(true), StartTrust, Enroll, Generation];
    TrustBegins(Effects(begun, Early(true)), true);
    GenerationNext(true, missing);
    UnblockedConcat(begun, Early(true), four);
    EffectsConcat(begun, Early(true), four);
    var rest := (Publications(missing) + [Act(MatchBaseline)]) + (Provides(Units(), true) + Preflighting());
    ResumeCut(s, Early(true) + four, rest);
  }

  lemma StockMore(s: Site, stock: nat, missing: nat)
    requires Stocked(s, stock, missing) && stock < QUOTA
    ensures Stocked(CalledAll(s, [Resume(WELL, Dones(19)), Recover(WELL, Dones(20))]), stock + 1, missing)
  {
    hide Called, CalledAll, Recovered;
    var t := Called(s, Resume(WELL, Dones(19)));
    StockResumed(s, stock, missing);
    CalledTwo(s, Resume(WELL, Dones(19)), Recover(WELL, Dones(20)));
    RecoverCall(t);
    RecoverCompletes(t, Dones(20));
  }

  lemma {:induction false} CalledConcat(s: Site, a: seq<Call>, b: seq<Call>)
    ensures CalledAll(s, a + b) == CalledAll(CalledAll(s, a), b)
    decreases |a|
  {
    hide Called;
    if a == [] {
      assert a + b == b;
    } else {
      assert (a + b)[1..] == a[1..] + b;
      CalledConcat(Called(s, a[0]), a[1..], b);
    }
  }

  lemma {:induction false} Attempts(missing: nat, n: nat) returns (calls: seq<Call>)
    requires 1 <= n <= QUOTA
    ensures Stocked(CalledAll(Legacy(missing), calls), n, missing)
    decreases n
  {
    hide Called, CalledAll, Stocked;
    if n == 1 {
      calls := [Apply(WELL, Dones(20)), Recover(WELL, Dones(20))];
      StockFirst(missing);
    } else {
      var earlier := Attempts(missing, n - 1);
      var again := [Resume(WELL, Dones(19)), Recover(WELL, Dones(20))];
      StockMore(CalledAll(Legacy(missing), earlier), n - 1, missing);
      calls := earlier + again;
      CalledConcat(Legacy(missing), earlier, again);
    }
  }

  /** Enough attempts whose load fails leave the updater without room, although nothing else is wrong. */
  lemma StoreFillsUp(missing: nat) returns (calls: seq<Call>)
    ensures var s := CalledAll(Legacy(missing), calls);
            && s.journal == Some(RolledBack) && s.base.enrolled && !s.base.shut && s.base.cut == {}
            && Tight(s.base) && Spoiled(s.base)
  {
    calls := Attempts(missing, QUOTA);
    hide CalledAll, Spoiled;
    TightSpoils(CalledAll(Legacy(missing), calls).base);
  }

  // The updater's boot unit fails when the new agent is started on trial.

  lemma {:induction false} EffectsWhole(s: Site, steps: seq<Step>)
    requires s.base.cut == {}
    ensures var b := Effects(s, steps).base; b.cut == {} && (s.base.enrolled || Enroll in steps ==> b.enrolled)
    decreases |steps|
  {
    if steps != [] {
      assert steps == [steps[0]] + steps[1..];
      EffectsWhole(Effect(s, steps[0]), steps[1..]);
    }
  }

  /** From the provisioned updater to the point where the agent is started. */
  function UpToStart(): seq<Step> {
    StopSteps() + (SwitchSteps() + [Act(ResetAgent)])
  }

  lemma StartNext()
    ensures SwitchoverSteps() == UpToStart() + ([StartAgent] + (Proving() + [Save(Committed)])) && |UpToStart()| == 11
    ensures forall i | 0 <= i < 11 ::
              Inner(UpToStart()[i]) && (UpToStart()[i].Save? ==> UpToStart()[i].phase != Committed)
  {
    assert TrialSteps() == [Act(ResetAgent)] + ([StartAgent] + (Proving() + [Save(Committed)]));
  }

  lemma {:induction false} UnblockedPrefix(s: Site, a: seq<Step>, b: seq<Step>)
    requires Unblocked(s, a + b)
    ensures Unblocked(s, a)
    decreases |a|
  {
    if a != [] {
      assert (a + b)[1..] == a[1..] + b;
      UnblockedPrefix(Effect(s, a[0]), a[1..], b);
    }
  }

  lemma StartFails(made: Site)
    requires made.journal == Some(Prepared) && made.dropin == Absent
    ensures var r := Walk(made, SwitchoverSteps(), Dones(11) + [Partial]);
            && r == Ran(r.site, [], Raised) && r.site.base == made.base.(shut := true)
            && r.site.journal.Some? && r.site.journal != Some(Committed)
  {
    hide UpToStart, SwitchoverSteps, Unblocked, Effects, Walk, Inner, StopSteps, SwitchSteps, TrialSteps;
    StartNext();
    var a, rest := UpToStart(), Proving() + [Save(Committed)];
    SwitchoverUnblocked(made);
    UnblockedPrefix(made, a, [StartAgent] + rest);
    WalkCalm(made, a, Dones(11));
    WalkInner(made, a, Dones(11));
    WalkKeepsOpen(made, a, Dones(11));
    CutShort(made, a, StartAgent, rest);
  }

  /** A first attempt that gets as far as its trial leaves an updater that calls for an operator. */
  lemma OperatorCalled(missing: nat)
    requires !Tight(Bare(missing))
    ensures var s := CalledAll(Legacy(missing), [Apply(WELL, Dones(48 + missing) + [Partial]), Recover(WELL, Dones(20))]);
            && s.journal == Some(RolledBack) && s.unit == OldUnit
            && s.base.enrolled && s.base.shut && s.base.cut == {} && Spoiled(s.base)
  {
    var luck := Dones(48 + missing) + [Partial];
    var begun, steps := FirstAttempt(missing), ProvisionSteps(false, missing);
    ApplyOpens(missing, luck);
    assert Provisionable(begun.base, false, missing) && |steps| == 34 + missing by {
      hide Listed;
    }
    ProvisionUnblocked(begun, false, missing);
    ProvisionEnrolls(false, missing);
    ProvisionOuter(false, missing);
    hide ProvisionSteps, Unblocked, Effects, Walk, Handoff, SwitchoverSteps, Provisionable, Called, CalledAll, Spoiled;
    var later := luck[3..];
    WalkPrefix(begun, steps, later);
    WalkOuter(begun, steps, later);
    EffectsWhole(begun, steps);
    assert later[34 + missing..] == Dones(11) + [Partial];
    StartFails(Effects(begun, steps));
    HandoffFails(begun, later);
    CutThenRecovered(missing, Apply(WELL, luck));
    ShutSpoils(Called(Legacy(missing), Apply(WELL, luck)).base);
  }

  /** The switchover raises and the power stays away. */
  lemma HandoffFails(s: Site, luck: seq<Luck>)
    requires var r := Then(Walk(s, ProvisionSteps(false, s.base.missing), luck), SwitchoverSteps());
             r.end.Raised? && r.luck == [] && r.site.journal.Some?
    ensures Handoff(s, false, WELL, luck).site == Then(Walk(s, ProvisionSteps(false, s.base.missing), luck), SwitchoverSteps()).site
  {
    hide ProvisionSteps, SwitchoverSteps;
    assert Provisioning(s, false, 0) == ProvisionSteps(false, s.base.missing);
    var r := Then(Walk(s, ProvisionSteps(false, s.base.missing), luck), SwitchoverSteps());
    hide Walk, Provisioning;
    NoPower(r.site, [Act(ReadOriginals)]);
  }

  // ---- as it is written ---------------------------------------------------------------------------------------------

  class Migration {
    var journal: Option<Phase>
    var unit: Unit
    var dropin: DropIn
    var marked: bool
    var base: Base
    var luck: seq<Luck>

    function Here(): Site
      reads this
    {
      Site(journal, unit, dropin, marked, base)
    }

    constructor (missing: nat, luck: seq<Luck>)
      ensures Here() == Legacy(missing) && this.luck == luck
    {
      journal := None;
      unit := OldUnit;
      dropin := Absent;
      marked := false;
      base := Bare(missing);
      this.luck := luck;
    }

    /** One step of the script. */
    method Take(step: Step) returns (r: Ended)
      modifies this
      ensures r == if old(luck) == [] then PowerOff else if Hit(old(Here()), step, old(luck)[0]).1 then Fine else Raised
      ensures luck == if old(luck) == [] then [] else old(luck)[1..]
      ensures Here() == if old(luck) == [] then old(Here()) else Hit(old(Here()), step, old(luck)[0]).0
    {
      if luck == [] {
        return PowerOff;
      }
      var fate := luck[0];
      luck := luck[1..];
      if Blocked(Here(), step) || fate.Lost? {
        return Raised;
      }
      match step {
        case Act(_) =>
        case Save(phase) =>
          journal := if fate.Partial? then journal else Some(phase);
        case Install(u) =>
          unit := if fate.Partial? then unit else u;
        case CreateDropIn =>
          dropin := if fate.Partial? then Cut else Whole;
        case RemoveDropIn =>
          dropin := if fate.Partial? then dropin else Absent;
        case MakeHome =>
          marked := true;
        case Provide(item, _) =>
          if !fate.Partial? {
            base := base.(whole := base.whole + {item}, cut := base.cut - {item});
          } else if !Exists(base, item) {
            base := base.(cut := base.cut + {item});
          }
        case CheckTrust(_) =>
        case StartTrust =>
          base := base.(started := true);
        case Enroll =>
          base := base.(enrolled := true, shut := fate.Partial? && !base.enrolled);
        case Generation =>
          base := base.(stock := base.stock + 1);
        case Publication =>
          base := base.(stock := base.stock + 1, missing := if fate.Partial? then base.missing else Less(base.missing));
        case StartAgent =>
          base := base.(shut := base.shut || fate.Partial?);
      }
      r := if fate.Done? then Fine else Raised;
    }

    method Follow(steps: seq<Step>) returns (r: Ended)
      modifies this
      ensures Ran(Here(), luck, r) == Walk(old(Here()), steps, old(luck))
    {
      r := Fine;
      var i := 0;
      while i < |steps|
        invariant 0 <= i <= |steps| && r.Fine?
        invariant Walk(old(Here()), steps, old(luck)) == Walk(Here(), steps[i..], luck)
      {
        assert steps[i..][1..] == steps[i + 1..];
        hide Hit;
        r := Take(steps[i]);
        if !r.Fine? {
          return;
        }
        i := i + 1;
      }
    }

    method Recover(intact: bool) returns (r: Ended)
      modifies this
      ensures Ran(Here(), luck, r) == Recovered(old(Here()), intact, old(luck))
      ensures Sound(old(Here())) ==> Sound(Here())
    {
      ghost var s, chance := Here(), luck;
      if Sound(s) {
        RecoverKeeps(s, intact, chance);
      }
      if journal.None? || Finished(journal.value) {
        return Fine;
      }
      r := Follow([Act(ReadOriginals)]);
      assert Here() == s by {
        assert [Act(ReadOriginals)][1..] == [];
      }
      if !r.Fine? {
        return;
      }
      if intact {
        r := Follow(UndoSteps(unit));
        if !r.Raised? {
          return;
        }
      }
      r := Follow([Save(ManualRecovery)]);
      if !r.PowerOff? {
        r := Raised;
      }
    }

    /** Provisioning, then forward to the signed unit; on any exception back, with the exception going on. */
    method HandOver(resuming: bool, w: World) returns (r: Ended)
      requires Here() == Site(Some(Prepared), OldUnit, Absent, true, base)
      modifies this
      ensures Ran(Here(), luck, r) == Handoff(old(Here()), resuming, w, old(luck))
      ensures Sound(Here()) && (r.Fine? ==> journal == Some(Committed))
    {
      HandoffKeeps(Here(), resuming, w, luck);
      HandoffFine(Here(), resuming, w, luck);
      hide Recovered, Walk, SwitchoverSteps;
      r := Follow(Provisioning(Here(), resuming, w.changed));
      hide Provisioning;
      if r.Fine? {
        r := Follow(SwitchoverSteps());
      }
      if r.Raised? {
        r := Recover(Intact(w));
        if !r.PowerOff? {
          r := Raised;
        }
      }
    }

    method Apply(w: World) returns (r: Ended)
      requires Sound(Here())
      modifies this
      ensures Ran(Here(), luck, r) == Applied(old(Here()), w, old(luck))
      ensures Sound(Here()) && (r.Fine? ==> journal == Some(Committed))
    {
      if journal.Some? || marked {
        return Raised;
      }
      MadeHome(Here(), luck);
      hide Begun;
      r := Follow([MakeHome]);
      if r.Fine? {
        r := Begin(false, w);
      }
    }

    method Resume(w: World) returns (r: Ended)
      requires Sound(Here())
      modifies this
      ensures Ran(Here(), luck, r) == Resumed(old(Here()), w, old(luck))
      ensures Sound(Here()) && (r.Fine? ==> journal == Some(Committed))
    {
      if journal != Some(RolledBack) || unit != OldUnit || !w.legacy {
        return Raised;
      }
      r := Begin(true, w);
    }

    method Begin(resuming: bool, w: World) returns (r: Ended)
      requires Sound(Here()) && journal in {None, Some(RolledBack)} && marked
      modifies this
      ensures Ran(Here(), luck, r) == Begun(old(Here()), resuming, w, old(luck))
      ensures Sound(Here()) && (r.Fine? ==> journal == Some(Committed))
    {
      BeginKeeps(Here(), resuming, w, luck);
      hide Handoff, Walk;
      r := Follow([Act(KeepRecords), Save(Prepared)]);
      if r.Fine? {
        r := HandOver(resuming, w);
      }
    }
  }

  /** Only the last step of a handoff writes `committed`. */
  lemma HandoffFine(s: Site, resuming: bool, w: World, luck: seq<Luck>)
    ensures var r := Then(Walk(s, Provisioning(s, resuming, w.changed), luck), SwitchoverSteps());
            r.end.Fine? ==> r.site.journal == Some(Committed)
  {
    var made := Walk(s, Provisioning(s, resuming, w.changed), luck);
    hide Provisioning;
    WalkLastSave(made.site, SwitchoverSteps(), made.luck);
  }

  lemma {:induction false} WalkLastSave(s: Site, steps: seq<Step>, luck: seq<Luck>)
    requires steps != [] && steps[|steps| - 1] == Save(Committed)
    ensures var r := Walk(s, steps, luck); r.end.Fine? ==> r.site.journal == Some(Committed)
    decreases |steps|
  {
    if |steps| == 1 {
      assert steps[1..] == [];
    } else if luck != [] && Hit(s, steps[0], luck[0]).1 {
      WalkLastSave(Effect(s, steps[0]), steps[1..], luck[1..]);
    }
  }
}
