/** Fetching and collecting keep the invariant: trust only grows, and nothing referenced disappears. */
module Fetches {
  import opened Options
  import opened AgentUpdate
  import opened LocalPolicy
  import opened Trust
  import opened Journals
  import opened Disks
  import opened Download
  import opened Runtime
  import opened Worlds
  import opened Saves
  import opened Safety

  /** `b` is `a` with newer trust: seen release, floors, roots and cache. */
  predicate Newer(a: Journal, b: Journal) {
    && b == a.(seenSequence := b.seenSequence, seenDigest := b.seenDigest, hardFloor := b.hardFloor,
               timeHigh := b.timeHigh, cache := b.cache, inventory := b.inventory, roots := b.roots)
    && Terminal(a.phase)
  }

  /** The numbers a journal with newer trust has to keep. */
  predicate Grounded(p: Policy, b: Journal) {
    && ValidSequence(b.seenSequence) && ValidDigest(b.seenDigest) && ValidSequence(b.hardFloor)
    && p.minimumSequence <= b.hardFloor <= b.installed.sequence <= b.seenSequence
    && b.timeHigh != 0 && 0 !in b.roots && |b.roots| <= ROOT_QUOTA
  }

  lemma NewerLawful(p: Policy, a: Journal, b: Journal, sb: Journal)
    requires Lawful(p, a) && !Dead(a) && Newer(a.(remote := b.remote), b) && Forward(a, b) && Grounded(p, b)
    requires a.phase == Phase.RolledBack ==> a.tx.Some? && a.installed == a.tx.value.from
    requires a.phase == Phase.Stable ==> a.tx.None?
    requires Lands(b, sb)
    requires b.remote.Some? ==> b.remote.value.acceptedAt + UPDATE_COOLDOWN_SECS < LIMIT_53
    ensures Lawful(p, sb)
  {
    hide Snapshot, RemoteValid, ValidDigest;
    assert Validate(p, a);
    assert TransactionValid(sb);
  }

  /** What the invariant says about a settled journal. */
  lemma SettledFacts(p: Policy, env: Env, s: State)
    requires ValidPolicy(p) && Inv(p, env, s) && Terminal(s.disk.journal.phase)
    ensures var a := s.disk.journal;
            && Sane(a) && !Dead(a) && Lawful(p, a) && ValidSequence(a.installed.sequence)
            && TruthInv(a, s.hist) && AcceptedInv(a, s.hist)
            && (a.phase == Phase.RolledBack ==> a.tx.Some? && a.installed == a.tx.value.from)
            && (a.phase == Phase.Stable ==> a.tx.None?)
  {
    hide BarrierInv, StreakInv, FailedInv, TruthInv, AcceptedInv, TrustKept, RemoteValid;
  }

  /** A save that only makes trust newer. */
  lemma NewerSaved(p: Policy, env: Env, s: State, b: Journal)
    requires ValidPolicy(p) && Inv(p, env, s)
    requires Newer(s.disk.journal, b) && Forward(s.disk.journal, b) && Grounded(p, b)
    requires TrustKept(p, s.disk.(journal := b))
    ensures Permitted(p, s, SaveJournal(b)) && Inv(p, env, Do(s, SaveJournal(b)))
    ensures Do(s, SaveJournal(b)).disk == s.disk.(journal := Snapshot(b))
    ensures s.hist.note.None? ==> Do(s, SaveJournal(b)).hist == s.hist
  {
    var a := s.disk.journal;
    var sb := Snapshot(b);
    SettledFacts(p, env, s);
    assert Between(a, sb) && a == Snapshot(a);
    NewerRemembered(a, b, s.hist);
    BetweenTruth(a, b, s.hist);
    assert a.(remote := b.remote) == a;
    hide Snapshot, RemoteValid, Validate, ValidPolicy, Sane, RemoteMove, TruthInv, AcceptedInv, HistInv, DiskInv;
    NewerLawful(p, a, b, sb);
    assert Forward(a, sb);
    NewerTrust(p, s.disk, b, sb);
    hide Lawful, Forward, Grounded, Between, Remember, TrustKept;
    BetweenSaved(p, env, s, b);
  }

  lemma NewerTrust(p: Policy, d: Disk, b: Journal, sb: Journal)
    requires TrustKept(p, d.(journal := b)) && sb == b.(remote := sb.remote)
    ensures TrustKept(p, d.(journal := sb))
  {
    hide Chain;
  }

  lemma NewerRemembered(a: Journal, b: Journal, h: History)
    requires b.remote == a.remote && Between(a, Snapshot(b)) && a == Snapshot(a)
    ensures h.note.None? ==> Remember(h, a, Snapshot(b)) == h
  {
  }

  // ---- memory ahead of the disk ------------------------------------------------------------------------

  /**
   * The journal in memory has at most newer trust than the one on disk, all of it already backed by
   * files: saving it is safe at any moment. A failed save leaves a fetch here.
   */
  ghost predicate Leading(p: Policy, s: State, j: Journal) {
    && Newer(s.disk.journal, j) && Forward(s.disk.journal, j) && Grounded(p, j)
    && TrustKept(p, s.disk.(journal := j)) && s.hist.note.None?
  }

  /** The journal in memory is the one on disk, between transactions. */
  ghost predicate Holding(p: Policy, s: State, j: Journal) {
    s.disk.journal == j && Terminal(j.phase) && Grounded(p, j) && s.hist.note.None?
  }

  lemma HoldingLeads(p: Policy, env: Env, s: State, j: Journal)
    requires Inv(p, env, s) && Holding(p, s, j)
    ensures Leading(p, s, j)
  {
    hide HistInv, Lawful, Pointer, Chain;
    assert s.disk.(journal := j) == s.disk;
  }

  /** Nothing but trust, and the files behind it, has changed since `s`. */
  predicate Framed(s: State, t: State) {
    && t.hist == s.hist
    && t.disk == s.disk.(journal := t.disk.journal, objects := t.disk.objects,
                         generations := t.disk.generations, rootFiles := t.disk.rootFiles)
    && s.disk.objects <= t.disk.objects
  }

  lemma NewerRefl(j: Journal)
    requires Terminal(j.phase)
    ensures Newer(j, j) && Forward(j, j)
  {
  }

  lemma NewerTrans(a: Journal, b: Journal, c: Journal)
    requires Newer(a, b) && Forward(a, b) && Newer(b, c) && Forward(b, c)
    ensures Newer(a, c) && Forward(a, c)
  {
  }

  lemma NewerStored(p: Policy, env: Env, s: State, b: Journal)
    requires Inv(p, env, s) && Newer(s.disk.journal, b)
    ensures Snapshot(b) == b
  {
    hide HistInv, TrustKept, Pointer, Validate;
    assert s.disk.journal == Snapshot(s.disk.journal);
  }

  /** The journal in memory reaches the disk. */
  lemma LeadingSaved(p: Policy, env: Env, s: State, b: Journal)
    requires ValidPolicy(p) && Inv(p, env, s) && Leading(p, s, b)
    ensures var t := Do(s, SaveJournal(b));
            && Permitted(p, s, SaveJournal(b)) && Inv(p, env, t) && Framed(s, t)
            && t.disk == s.disk.(journal := b) && Holding(p, t, b) && Leading(p, t, b)
  {
    hide Inv, Permitted, Forward, Grounded, TrustKept, ValidPolicy;
    NewerSaved(p, env, s, b);
    NewerStored(p, env, s, b);
    hide Snapshot, Do;
    HoldingLeads(p, env, Do(s, SaveJournal(b)), b);
  }

  /** A root file, an object, or a generation that no journal names. */
  predicate Aside(s: State, j: Journal, w: Write) {
    || (w.PutRoot? && SelfSigned(w.root))
    || (w.PutObject? && Terminal(s.disk.journal.phase) && w.digest == s.disk.journal.seenDigest)
    || ((w.MakeGeneration? || w.FillGeneration?) && s.disk.journal.cache != Some(w.id) && j.cache != Some(w.id)
        && (w.MakeGeneration? ==> |s.disk.generations| < GENERATION_QUOTA && w.id !in s.disk.generations))
  }

  lemma AsideTrust(p: Policy, s: State, j: Journal, w: Write)
    requires TrustKept(p, s.disk.(journal := j)) && Aside(s, j, w)
    ensures TrustKept(p, Do(s, w).disk.(journal := j)) && Framed(s, Do(s, w)) && Do(s, w).disk.journal == s.disk.journal
  {
    hide Chain;
  }

  lemma AsideInert(p: Policy, env: Env, s: State, w: Write)
    requires Inv(p, env, s) && Aside(s, s.disk.journal, w)
    ensures Permitted(p, s, w) && Inv(p, env, Do(s, w))
  {
    hide BarrierInv, StreakInv, FailedInv, TruthInv, AcceptedInv, Lawful, Chain;
  }

  lemma LeadingAside(p: Policy, env: Env, s: State, j: Journal, w: Write)
    requires Inv(p, env, s) && Leading(p, s, j) && Aside(s, j, w)
    ensures var t := Do(s, w);
            && Permitted(p, s, w) && Inv(p, env, t) && Framed(s, t)
            && t.disk.journal == s.disk.journal && Leading(p, t, j)
  {
    AsideTrust(p, s, j, w);
    hide Inv, Permitted, Newer, Forward, Grounded, TrustKept, Do, Framed;
    AsideInert(p, env, s, w);
  }

  // ---- lists of writes -----------------------------------------------------------------------------------

  function After(s: State, items: seq<Item>): State {
    DoAll(s, Writes(items))
  }

  lemma AfterDisk(s: State, items: seq<Item>)
    ensures After(s, items).disk == Written(s.disk, items)
  {
    DoAllDisk(s, Writes(items));
  }

  lemma AfterNil(s: State)
    ensures After(s, []) == s
  {
    assert Writes([]) == [];
  }

  lemma AfterCons(s: State, item: Item, rest: seq<Item>)
    ensures After(s, [item] + rest) == After(Do(s, item.write), rest)
  {
    hide Do;
    assert Writes([item] + rest) == [item.write] + Writes(rest);
    assert ([item.write] + Writes(rest))[1..] == Writes(rest);
  }

  lemma AfterOne(s: State, item: Item)
    ensures After(s, [item]) == Do(s, item.write)
  {
    assert [item] + [] == [item];
    AfterCons(s, item, []);
    AfterNil(Do(s, item.write));
  }

  lemma AfterConcat(s: State, a: seq<Item>, b: seq<Item>)
    ensures After(s, a + b) == After(After(s, a), b)
  {
    assert Writes(a + b) == Writes(a) + Writes(b);
    DoAllConcat(s, Writes(a), Writes(b));
  }

  lemma {:induction false} DoAllConcat(s: State, a: seq<Write>, b: seq<Write>)
    ensures DoAll(s, a + b) == DoAll(DoAll(s, a), b)
    decreases |a|
  {
    hide Do;
    if a == [] {
      assert a + b == b;
    } else {
      assert (a + b)[1..] == a[1..] + b;
      DoAllConcat(Do(s, a[0]), a[1..], b);
    }
  }

  /** Nothing is latched or ignored. */
  predicate AllReturning(items: seq<Item>) {
    forall i | 0 <= i < |items| :: items[i].fault.Returning? || items[i].fault.Rescued?
  }

  lemma NothingSafe(p: Policy, env: Env, s: State)
    requires Inv(p, env, s)
    ensures Safe(p, env, s, []) && AllReturning([]) && After(s, []) == s
  {
    AfterNil(s);
    hide Inv;
    SafeNil(p, env, s);
  }

  /** Where a plan leads: newer trust in memory, and a disk it may be saved to. */
  ghost predicate Reaches(p: Policy, env: Env, s: State, j: Journal, plan: Plan) {
    var t := After(s, plan.items);
    Inv(p, env, t) && Framed(s, t) && Leading(p, t, plan.mem) && Newer(j, plan.mem) && Forward(j, plan.mem)
  }

  ghost predicate Carries(p: Policy, env: Env, s: State, j: Journal, plan: Plan) {
    Safe(p, env, s, plan.items) && AllReturning(plan.items) && Reaches(p, env, s, j, plan)
  }

  lemma CarriesNil(p: Policy, env: Env, s: State, j: Journal, end: End)
    requires Inv(p, env, s) && Leading(p, s, j)
    ensures Carries(p, env, s, j, Plan([], j, end))
  {
    AfterNil(s);
    NewerRefl(j);
    hide Inv, Newer, Forward, Grounded, TrustKept;
    SafeNil(p, env, s);
  }

  lemma CarriesThen(p: Policy, env: Env, s: State, j: Journal, first: Plan, rest: Plan)
    requires Carries(p, env, s, j, first) && Carries(p, env, After(s, first.items), first.mem, rest)
    ensures Carries(p, env, s, j, Before(first.items, rest))
  {
    hide Inv, Safe, Newer, Forward, Leading, After;
    NewerTrans(j, first.mem, rest.mem);
    AfterConcat(s, first.items, rest.items);
    ReturningConcat(p, env, s, first.items, rest.items);
  }

  lemma ReturningConcat(p: Policy, env: Env, s: State, a: seq<Item>, b: seq<Item>)
    requires Safe(p, env, s, a) && AllReturning(a) && Safe(p, env, After(s, a), b)
    ensures Safe(p, env, s, a + b)
  {
    hide Inv, Safe;
    SafeConcat(p, env, s, a, b);
  }

  lemma CarriesEnds(p: Policy, env: Env, s: State, j: Journal, plan: Plan)
    requires Carries(p, env, s, j, plan)
    ensures var t := After(s, plan.items);
            Inv(p, env, t) && Leading(p, t, plan.mem) && t.disk == Written(s.disk, plan.items) && t.hist == s.hist
  {
    AfterDisk(s, plan.items);
    hide Inv, Safe, Newer, Forward, Leading, After;
  }

  /**
   * Plain writes at each of which the fetch may also stop: before and after every one of them the
   * journal then in memory leads the disk. `known` are the root records it may have.
   */
  ghost predicate Steady(p: Policy, env: Env, s: State, items: seq<Item>, known: set<map<nat, Root>>)
    decreases |items|
  {
    && Inv(p, env, s)
    && (items != [] ==>
          && Firm(p, s, items[0], known)
          && Steady(p, env, Do(s, items[0].write), items[1..], known))
  }

  ghost predicate Firm(p: Policy, s: State, item: Item, known: set<map<nat, Root>>) {
    && item.fault.Returning? && item.mem.roots in known && Permitted(p, s, item.write)
    && Leading(p, s, item.mem) && Leading(p, Do(s, item.write), item.mem)
  }

  lemma SteadyNil(p: Policy, env: Env, s: State, known: set<map<nat, Root>>)
    requires Inv(p, env, s)
    ensures Steady(p, env, s, [], known) && After(s, []) == s
  {
    hide Inv;
    AfterNil(s);
  }

  lemma SteadyCons(p: Policy, env: Env, s: State, item: Item, rest: seq<Item>, known: set<map<nat, Root>>)
    requires Inv(p, env, s) && Firm(p, s, item, known) && Steady(p, env, Do(s, item.write), rest, known)
    ensures Steady(p, env, s, [item] + rest, known)
    ensures After(s, [item] + rest) == After(Do(s, item.write), rest)
  {
    hide Inv, Firm, Do;
    assert ([item] + rest)[1..] == rest;
    AfterCons(s, item, rest);
  }

  lemma {:induction false} SteadySafe(p: Policy, env: Env, s: State, items: seq<Item>, known: set<map<nat, Root>>)
    requires Steady(p, env, s, items, known)
    ensures Safe(p, env, s, items) && AllReturning(items)
    decreases |items|
  {
    hide Inv, Permitted, Leading, Do;
    if items == [] {
      SafeNil(p, env, s);
    } else {
      SteadySafe(p, env, Do(s, items[0].write), items[1..], known);
      SafeCons(p, env, s, items[0], items[1..]);
      assert [items[0]] + items[1..] == items;
      assert forall i | 1 <= i < |items| :: items[i] == items[1..][i - 1];
    }
  }

  // ---- the client ------------------------------------------------------------------------------------------

  /** A root the client may hold: the bootstrap root or a later one, and the recorded one of its version if any. */
  predicate Genuine(p: Policy, roots: map<nat, Root>, r: Root) {
    && r.version >= p.bootstrap.version
    && (r.version == p.bootstrap.version ==> r == p.bootstrap)
    && (r.version in roots ==> roots[r.version] == r)
  }

  predicate ClientOk(p: Policy, l: Load, roots: map<nat, Root>) {
    && (l.initial == p.bootstrap || l.initial.version in roots)
    && Genuine(p, roots, l.client.trusted)
    && (RootJson in l.client.files ==>
          && l.client.files[RootJson].RootDoc?
          && var r := l.client.files[RootJson].root;
             && Genuine(p, roots, r) && r.version <= l.client.trusted.version
             && (r.version == l.client.trusted.version ==> r == l.client.trusted))
  }

  /** The working root, if any, is the recorded document of its version. */
  predicate Captured(j: Journal, files: Inventory) {
    RootJson in files ==> files[RootJson].RootDoc? && Recorded(j.roots, files[RootJson].root)
  }

  /** Whatever answers a root request, the network included, cannot contradict the record. */
  lemma AnswerGenuine(p: Policy, roots: map<nat, Root>, c: Client, v: Visit)
    requires Chain(p.bootstrap, roots) && Genuine(p, roots, c.trusted)
    ensures var answer := Answer(roots, c, v);
            answer.Some? && answer.value.version > c.trusted.version ==> Genuine(p, roots, answer.value)
  {
    var lo: nat :| Spans(p.bootstrap, roots, lo);
    hide Authorised, SelfSigned;
  }

  lemma FiledOk(p: Policy, l: Load, roots: map<nat, Root>, filing: Filing, trusted: Root)
    requires ClientOk(p, l, roots) && Genuine(p, roots, trusted)
    requires trusted == l.client.trusted || trusted.version > l.client.trusted.version
    ensures ClientOk(p, l.(client := Client(trusted, Filed(l.client.files, filing, trusted))), roots)
  {
  }

  lemma AbortedOk(p: Policy, l: Load, roots: map<nat, Root>)
    requires l.visits != [] && ClientOk(p, l, roots)
    ensures ClientOk(p, Aborted(l), roots)
  {
    FiledOk(p, l, roots, l.visits[0].filing, l.client.trusted);
  }

  lemma AnsweredOk(p: Policy, l: Load, roots: map<nat, Root>)
    requires l.visits != [] && Chain(p.bootstrap, roots) && ClientOk(p, l, roots)
    ensures ClientOk(p, Answered(l, roots), roots)
  {
    hide Chain, Genuine, Answer;
    AnswerGenuine(p, roots, l.client, l.visits[0]);
    FiledOk(p, l, roots, l.visits[0].filing, Answered(l, roots).client.trusted);
  }

  lemma OpeningOk(p: Policy, env: Env, s: State, j: Journal, f: Fetch)
    requires Leading(p, s, j)
    ensures ClientOk(p, Opening(p, j, f), j.roots)
  {
    assert TrustKept(p, s.disk.(journal := j)) && Chain(p.bootstrap, j.roots);
    hide Newer, Forward, Grounded, RootsStored, Authorised, SelfSigned;
    var lo: nat :| Spans(p.bootstrap, j.roots, lo);
    var initial := InitialRoot(p, j);
    assert Genuine(p, j.roots, initial);
    var staged := Load(initial, Client(initial, Staged(j)), f.visits, false, false, f.finishing);
    assert ClientOk(p, staged, j.roots);
    hide Spans;
    FiledOk(p, staged, j.roots, f.opening, initial);
  }

  // ---- root capture -----------------------------------------------------------------------------------------

  lemma CaptureTrust(p: Policy, d: Disk, j: Journal, initial: Root, root: Root)
    requires TrustKept(p, d.(journal := j)) && (initial == p.bootstrap || initial.version in j.roots)
    requires SelfSigned(root) && root.version !in j.roots && Continues(j.roots, initial, root) && |j.roots| < ROOT_QUOTA
    requires Genuine(p, j.roots, root) && root in d.rootFiles
    ensures TrustKept(p, d.(journal := j.(roots := j.roots[root.version := root])))
    ensures 0 !in j.roots ==> 0 !in j.roots[root.version := root]
    ensures |j.roots[root.version := root]| <= ROOT_QUOTA
    ensures Forward(j, j.(roots := j.roots[root.version := root]))
  {
    hide Chain, Continues, SelfSigned, RootsStored;
    ChainExtends(p.bootstrap, j.roots, initial, root);
    StoredGrows(d.(journal := j), root);
    var grown := j.roots[root.version := root];
    assert forall v | v in j.roots :: v in grown && grown[v] == j.roots[v];
    assert root.version > 0 by {
      SignedVersion(root);
    }
  }

  lemma SignedVersion(root: Root)
    requires SelfSigned(root)
    ensures root.version > 0
  {
  }

  lemma StoredGrows(d: Disk, root: Root)
    requires RootsStored(d) && root in d.rootFiles && SelfSigned(root)
    ensures RootsStored(d.(journal := d.journal.(roots := d.journal.roots[root.version := root])))
  {
    hide SelfSigned;
  }

  lemma RecordedLeads(p: Policy, s: State, j: Journal, initial: Root, root: Root)
    requires Leading(p, s, j) && (initial == p.bootstrap || initial.version in j.roots)
    requires SelfSigned(root) && root.version !in j.roots && Continues(j.roots, initial, root) && |j.roots| < ROOT_QUOTA
    requires Genuine(p, j.roots, root) && root in s.disk.rootFiles
    ensures var recorded := j.(roots := j.roots[root.version := root]);
            Leading(p, s, recorded) && Newer(j, recorded) && Forward(j, recorded)
  {
    hide TrustKept, SelfSigned, Continues, Genuine;
    CaptureTrust(p, s.disk, j, initial, root);
    var recorded := j.(roots := j.roots[root.version := root]);
    assert Newer(j, recorded);
    NewerTrans(s.disk.journal, j, recorded);
    assert Grounded(p, recorded);
  }

  lemma RootPut(s: State, root: Root)
    ensures root in Do(s, PutRoot(root)).disk.rootFiles
  {
  }

  lemma CaptureSteady(p: Policy, env: Env, s: State, j: Journal, initial: Root, root: Root)
    requires ValidPolicy(p) && Inv(p, env, s) && Leading(p, s, j) && (initial == p.bootstrap || initial.version in j.roots)
    requires SelfSigned(root) && root.version !in j.roots && Continues(j.roots, initial, root) && |j.roots| < ROOT_QUOTA
    requires Genuine(p, j.roots, root)
    ensures var recorded := j.(roots := j.roots[root.version := root]);
            var items := [Leave(PutRoot(root), j), Leave(SaveJournal(recorded), recorded)];
            && Steady(p, env, s, items, {j.roots, recorded.roots})
            && Reaches(p, env, s, j, Plan(items, recorded, Finished))
  {
    hide Inv, Permitted, Leading, SelfSigned, Continues, ValidPolicy, Genuine, Newer, Forward, Do, After, Steady;
    var recorded := j.(roots := j.roots[root.version := root]);
    var known := {j.roots, recorded.roots};
    var put, save := Leave(PutRoot(root), j), Leave(SaveJournal(recorded), recorded);
    var s1 := Do(s, put.write);
    var s2 := Do(s1, save.write);
    LeadingAside(p, env, s, j, put.write);
    RootPut(s, root);
    RecordedLeads(p, s1, j, initial, root);
    LeadingSaved(p, env, s1, recorded);
    SteadyNil(p, env, s2, known);
    SteadyCons(p, env, s1, save, [], known);
    assert [save] + [] == [save] && [put] + [save] == [put, save];
    SteadyCons(p, env, s, put, [save], known);
  }

  lemma CaptureShape(j: Journal, l: Load)
    ensures var plan := CapturePlan(j, l.initial, l.client.files);
            if plan.items == [] then
              plan.mem == j && (plan.end.Finished? && RootJson in l.client.files ==>
                                  l.client.files[RootJson].RootDoc? && l.client.files[RootJson].root.version in j.roots)
            else
              && RootJson in l.client.files && l.client.files[RootJson].RootDoc?
              && var root := l.client.files[RootJson].root; var recorded := j.(roots := j.roots[root.version := root]);
                 && plan == Plan([Leave(PutRoot(root), j), Leave(SaveJournal(recorded), recorded)], recorded, Finished)
                 && SelfSigned(root) && root.version !in j.roots && Continues(j.roots, l.initial, root) && |j.roots| < ROOT_QUOTA
  {
    hide SelfSigned, Continues;
  }

  lemma ClientRoot(p: Policy, l: Load, roots: map<nat, Root>)
    requires ClientOk(p, l, roots) && RootJson in l.client.files
    ensures l.client.files[RootJson].RootDoc?
    ensures var root := l.client.files[RootJson].root;
            && Genuine(p, roots, root) && (root.version in roots ==> Recorded(roots, root))
            && ClientOk(p, l, roots[root.version := root])
    ensures l.initial == p.bootstrap || l.initial.version in roots
  {
  }

  /** A capture, whether its writes are guarded or not. */
  lemma CaptureCarries(p: Policy, env: Env, s: State, j: Journal, l: Load)
    requires ValidPolicy(p) && Inv(p, env, s) && Leading(p, s, j) && ClientOk(p, l, j.roots)
    ensures var plan := CapturePlan(j, l.initial, l.client.files);
            && Steady(p, env, s, plan.items, {j.roots, plan.mem.roots})
            && Carries(p, env, s, j, plan)
            && ClientOk(p, l, plan.mem.roots)
            && (plan.end.Finished? ==> Captured(plan.mem, l.client.files))
  {
    hide Inv, Leading, SelfSigned, Continues, Reaches, ClientOk, Genuine, ValidPolicy, Safe, CapturePlan, Steady, AllReturning;
    var plan := CapturePlan(j, l.initial, l.client.files);
    CaptureShape(j, l);
    if RootJson in l.client.files {
      ClientRoot(p, l, j.roots);
    }
    if plan.items == [] {
      SteadyNil(p, env, s, {j.roots, plan.mem.roots});
      CarriesNil(p, env, s, j, plan.end);
    } else {
      CaptureSteady(p, env, s, j, l.initial, l.client.files[RootJson].root);
      SteadySafe(p, env, s, plan.items, {j.roots, plan.mem.roots});
    }
  }

  // ---- publishing the cache ---------------------------------------------------------------------------------

  lemma PublishedTrust(p: Policy, d: Disk, j: Journal, files: Inventory, nonce: string)
    requires TrustKept(p, d.(journal := j)) && Captured(j, files) && RootJson in files
    requires nonce in d.generations && d.generations[nonce] == files
    ensures TrustKept(p, d.(journal := j.(cache := Some(nonce), inventory := files)))
  {
    hide Chain;
  }

  lemma PublishedLeads(p: Policy, s: State, j: Journal, files: Inventory, nonce: string)
    requires Leading(p, s, j) && Captured(j, files) && RootJson in files
    requires nonce in s.disk.generations && s.disk.generations[nonce] == files
    ensures var published := j.(cache := Some(nonce), inventory := files);
            Leading(p, s, published) && Newer(j, published) && Forward(j, published)
  {
    hide TrustKept, Captured;
    PublishedTrust(p, s.disk, j, files, nonce);
    var published := j.(cache := Some(nonce), inventory := files);
    NewerTrans(s.disk.journal, j, published);
  }

  /** A generation that does not exist yet is named by no journal. */
  lemma FreshNonce(p: Policy, env: Env, s: State, j: Journal, nonce: string)
    requires Inv(p, env, s) && Leading(p, s, j)
    requires nonce !in s.disk.generations && |s.disk.generations| < GENERATION_QUOTA
    ensures Aside(s, j, MakeGeneration(nonce)) && Aside(s, s.disk.journal, MakeGeneration(nonce))
  {
    hide HistInv, Lawful, Pointer, Chain, Newer, Forward, Grounded;
  }

  lemma FilledDisk(s: State, files: Inventory, nonce: string)
    ensures var s1 := Do(s, MakeGeneration(nonce)); var s2 := Do(s1, FillGeneration(nonce, files));
            && s1.disk.journal == s.disk.journal && s2.disk.journal == s.disk.journal
            && nonce in s2.disk.generations && s2.disk.generations[nonce] == files
  {
  }

  lemma FilledSteady(p: Policy, env: Env, s: State, j: Journal, files: Inventory, nonce: string, rest: seq<Item>, known: set<map<nat, Root>>)
    requires Inv(p, env, s) && Leading(p, s, j) && j.roots in known
    requires nonce !in s.disk.generations && |s.disk.generations| < GENERATION_QUOTA
    requires var s2 := Do(Do(s, MakeGeneration(nonce)), FillGeneration(nonce, files));
             Inv(p, env, s2) && Leading(p, s2, j) && Framed(s, s2) ==> Steady(p, env, s2, rest, known)
    ensures var s2 := Do(Do(s, MakeGeneration(nonce)), FillGeneration(nonce, files));
            var items := [Leave(MakeGeneration(nonce), j), Leave(FillGeneration(nonce, files), j)] + rest;
            && Inv(p, env, s2) && Leading(p, s2, j) && Framed(s, s2)
            && Steady(p, env, s, items, known) && After(s, items) == After(s2, rest)
  {
    hide Inv, Permitted, Leading, Newer, Forward, Do, After, Steady;
    var make, fill := Leave(MakeGeneration(nonce), j), Leave(FillGeneration(nonce, files), j);
    var s1 := Do(s, make.write);
    FreshNonce(p, env, s, j, nonce);
    FilledDisk(s, files, nonce);
    LeadingAside(p, env, s, j, make.write);
    LeadingAside(p, env, s1, j, fill.write);
    SteadyCons(p, env, s1, fill, rest, known);
    SteadyCons(p, env, s, make, [fill] + rest, known);
    assert [make] + ([fill] + rest) == [make, fill] + rest;
  }

  lemma PublishNewSteady(p: Policy, env: Env, s: State, j: Journal, files: Inventory, nonce: string)
    requires ValidPolicy(p) && Inv(p, env, s) && Leading(p, s, j) && Captured(j, files)
    requires RootJson in files && nonce !in s.disk.generations && |s.disk.generations| < GENERATION_QUOTA
    ensures var published := j.(cache := Some(nonce), inventory := files);
            var items := [Leave(MakeGeneration(nonce), j), Leave(FillGeneration(nonce, files), j),
                          Leave(SaveJournal(published), published)];
            && Steady(p, env, s, items, {j.roots})
            && Reaches(p, env, s, j, Plan(items, published, Finished))
            && Holding(p, After(s, items), published)
  {
    var published := j.(cache := Some(nonce), inventory := files);
    var save := Leave(SaveJournal(published), published);
    var s2 := Do(Do(s, MakeGeneration(nonce)), FillGeneration(nonce, files));
    FilledDisk(s, files, nonce);
    hide Inv, Permitted, Leading, Newer, Forward, Grounded, Do, After, Steady, Captured, ValidPolicy;
    if Inv(p, env, s2) && Leading(p, s2, j) && Framed(s, s2) {
      PublishedLeads(p, s2, j, files, nonce);
      LeadingSaved(p, env, s2, published);
      SteadyNil(p, env, Do(s2, save.write), {j.roots});
      SteadyCons(p, env, s2, save, [], {j.roots});
      assert [save] + [] == [save];
    }
    FilledSteady(p, env, s, j, files, nonce, [save], {j.roots});
    assert [Leave(MakeGeneration(nonce), j), Leave(FillGeneration(nonce, files), j)] + [save]
        == [Leave(MakeGeneration(nonce), j), Leave(FillGeneration(nonce, files), j), save];
  }

  lemma PublishSameSteady(p: Policy, env: Env, s: State, j: Journal)
    requires ValidPolicy(p) && Inv(p, env, s) && Leading(p, s, j)
    ensures var items := [Leave(SaveJournal(j), j)];
            && Steady(p, env, s, items, {j.roots})
            && Reaches(p, env, s, j, Plan(items, j, Finished))
            && Holding(p, After(s, items), j)
  {
    NewerRefl(j);
    var save := Leave(SaveJournal(j), j);
    hide Inv, Permitted, Leading, Newer, Forward, Grounded, Do, After, Steady, ValidPolicy;
    LeadingSaved(p, env, s, j);
    SteadyNil(p, env, Do(s, save.write), {j.roots});
    SteadyCons(p, env, s, save, [], {j.roots});
    assert [save] + [] == [save];
  }

  /** A finished publication leaves the journal of memory on disk. */
  lemma PublishCarries(p: Policy, env: Env, s: State, j: Journal, files: Inventory, nonce: string)
    requires ValidPolicy(p) && Inv(p, env, s) && Leading(p, s, j) && Captured(j, files)
    ensures var plan := PublishPlan(s.disk, j, files, nonce);
            && Steady(p, env, s, plan.items, {j.roots})
            && Carries(p, env, s, j, plan)
            && plan.mem == j.(cache := plan.mem.cache, inventory := plan.mem.inventory)
            && (plan.end.Finished? ==> Holding(p, After(s, plan.items), plan.mem))
  {
    var plan := PublishPlan(s.disk, j, files, nonce);
    hide Inv, Leading, Captured, ValidPolicy, Reaches, Holding, Safe, After;
    if plan.end.Failed? {
      SteadyNil(p, env, s, {j.roots});
      hide Carries;
      CarriesNil(p, env, s, j, plan.end);
    } else if |plan.items| == 1 {
      PublishSameSteady(p, env, s, j);
      SteadySafe(p, env, s, plan.items, {j.roots});
    } else {
      PublishNewSteady(p, env, s, j, files, nonce);
      SteadySafe(p, env, s, plan.items, {j.roots});
    }
  }

  lemma SameRoots(a: Journal, b: Journal, files: Inventory)
    requires b == a.(cache := b.cache, inventory := b.inventory)
    ensures Captured(a, files) == Captured(b, files)
  {
  }

  // ---- a repository load ------------------------------------------------------------------------------------

  lemma RefreshCarries(p: Policy, env: Env, s: State, j: Journal, files: Inventory, nonce: string, publishing: bool)
    requires ValidPolicy(p) && Inv(p, env, s) && Leading(p, s, j) && Captured(j, files)
    ensures var plan := Refreshed(s.disk, j, files, nonce, publishing);
            && Steady(p, env, s, plan.items, {j.roots})
            && Carries(p, env, s, j, plan)
            && plan.mem == j.(cache := plan.mem.cache, inventory := plan.mem.inventory)
  {
    hide Inv, Leading, Captured, ValidPolicy, Carries, PublishPlan;
    if publishing {
      PublishCarries(p, env, s, j, files, nonce);
    } else {
      SteadyNil(p, env, s, {j.roots});
      CarriesNil(p, env, s, j, Finished);
    }
  }

  /** `finish`: its writes are not guarded. */
  lemma FinishCarries(p: Policy, env: Env, s: State, j: Journal, l: Load)
    requires ValidPolicy(p) && Inv(p, env, s) && Leading(p, s, j) && ClientOk(p, l, j.roots)
    ensures var plan := FinishPlan(s.disk, j, l);
            && Carries(p, env, s, j, plan)
            && (plan.end.Finished? ==> Captured(plan.mem, l.client.files))
  {
    hide Inv, Leading, ValidPolicy, ClientOk, Captured, CapturePlan, Refreshed, After, Safe, Reaches;
    var captured := CapturePlan(j, l.initial, l.client.files);
    CaptureCarries(p, env, s, j, l);
    if captured.end.Finished? {
      var t := After(s, captured.items);
      CarriesEnds(p, env, s, j, captured);
      RefreshCarries(p, env, t, captured.mem, l.client.files, l.finishing, l.publishing);
      var refreshed := Refreshed(t.disk, captured.mem, l.client.files, l.finishing, l.publishing);
      SameRoots(captured.mem, refreshed.mem, l.client.files);
      CarriesThen(p, env, s, j, captured, refreshed);
    }
    var plan := FinishPlan(s.disk, j, l);
    assert forall end: End :: Carries(p, env, s, j, plan) == Carries(p, env, s, j, plan.(end := end)) by {
      forall end: End ensures Carries(p, env, s, j, plan) == Carries(p, env, s, j, plan.(end := end)) {
        SameCarries(p, env, s, j, plan, end);
      }
    }
  }

  lemma SameCarries(p: Policy, env: Env, s: State, j: Journal, plan: Plan, end: End)
    ensures Carries(p, env, s, j, plan) == Carries(p, env, s, j, plan.(end := end))
  {
    hide Inv, Leading, Safe, After, Newer, Forward, Framed;
  }

  /** What a fetch still has to show of the rest of a load. */
  ghost predicate Loaded(p: Policy, env: Env, s: State, j: Journal, loading: Loading) {
    && Carries(p, env, s, j, loading.plan)
    && (loading.plan.end.Finished? ==> Captured(loading.plan.mem, loading.files))
  }

  lemma GuardedWrites(d: Disk, items: seq<Item>, l: Load, s: State)
    ensures AllReturning(Guarded(d, items, l)) && After(s, Guarded(d, items, l)) == After(s, items)
  {
    GuardedReturning(d, items, l);
    hide Guarded;
    assert Writes(Guarded(d, items, l)) == Writes(items);
  }

  lemma {:induction false} GuardedReturning(d: Disk, items: seq<Item>, l: Load)
    ensures AllReturning(Guarded(d, items, l))
    decreases |items|
  {
    hide LoadPlan;
    if items != [] {
      GuardedReturning(Apply(d, items[0].write), items[1..], l);
    }
  }

  /** Guarded writes are safe, since the load may go on from wherever one of them fails. */
  lemma {:induction false} GuardedSafe(p: Policy, env: Env, s: State, items: seq<Item>, l: Load, known: set<map<nat, Root>>, rest: seq<Item>)
    requires ValidPolicy(p) && Steady(p, env, s, items, known)
    requires forall roots | roots in known :: ClientOk(p, l, roots)
    requires Safe(p, env, After(s, items), rest)
    ensures Safe(p, env, s, Guarded(s.disk, items, l) + rest)
    decreases |l.visits|, 2, |items|
  {
    var guarded := Guarded(s.disk, items, l);
    hide Inv, Permitted, Leading, Do, ValidPolicy, ClientOk, LoadPlan, After;
    if items == [] {
      AfterNil(s);
      assert guarded + rest == rest;
    } else {
      var item, t := items[0], Do(s, items[0].write);
      assert Firm(p, s, item, known);
      LoadCarries(p, env, s, item.mem, l);
      LoadCarries(p, env, t, item.mem, l);
      assert [item] + items[1..] == items;
      AfterCons(s, item, items[1..]);
      GuardedSafe(p, env, t, items[1..], l, known, rest);
      var first := guarded[0];
      assert t.disk == Apply(s.disk, item.write) by {
        DoneDisk(s, item.write);
      }
      var lost, torn := LoadPlan(s.disk, item.mem, l).plan, LoadPlan(t.disk, item.mem, l).plan;
      assert first == item.(fault := Rescued(lost, torn));
      assert guarded + rest == [first] + (Guarded(t.disk, items[1..], l) + rest);
      hide Guarded, Safe;
      SafeRescued(p, env, s, first, Guarded(t.disk, items[1..], l) + rest);
    }
  }

  lemma DoneDisk(s: State, w: Write)
    ensures Do(s, w).disk == Apply(s.disk, w)
  {
  }

  lemma SafeRescued(p: Policy, env: Env, s: State, item: Item, rest: seq<Item>)
    requires Inv(p, env, s) && Permitted(p, s, item.write) && item.fault.Rescued?
    requires Safe(p, env, s, item.fault.lost.items) && Safe(p, env, Do(s, item.write), item.fault.torn.items)
    requires Safe(p, env, Do(s, item.write), rest)
    ensures Safe(p, env, s, [item] + rest)
  {
    hide Inv, Permitted, Do;
    var items := [item] + rest;
    assert items[1..] == rest && items[0] == item;
    assert RescueSafe(p, env, s, item);
    assert Sound(p, env, s, item);
  }

  /**
   * The rest of a load, from wherever it is: through all its requests, through requests that fail and
   * writes that are lost, the journal in memory leads the disk and the working root is the recorded one.
   */
  lemma {:induction false} LoadCarries(p: Policy, env: Env, s: State, j: Journal, l: Load)
    requires ValidPolicy(p) && Inv(p, env, s) && Leading(p, s, j) && ClientOk(p, l, j.roots)
    ensures Loaded(p, env, s, j, LoadPlan(s.disk, j, l))
    decreases |l.visits|, 1, 0
  {
    hide Inv, Leading, ValidPolicy, ClientOk, Captured, CapturePlan, Refreshed, Carries, FinishPlan, LoadPlan, Begun, Aborted;
    LoadUnfold(s.disk, j, l);
    if l.visits == [] {
      FinishCarries(p, env, s, j, l);
    } else {
      CaptureCarries(p, env, s, j, l);
      AbortedShorter(l);
      AbortedOk(p, l, j.roots);
      if CapturePlan(j, l.initial, l.client.files).end.Failed? {
        LoadCarries(p, env, s, j, Aborted(l));
      } else {
        VisitCarries(p, env, s, j, l);
      }
    }
  }

  lemma AbortedShorter(l: Load)
    requires l.visits != []
    ensures |Aborted(l).visits| < |l.visits|
  {
  }

  lemma LoadUnfold(d: Disk, j: Journal, l: Load)
    ensures var captured := CapturePlan(j, l.initial, l.client.files);
            LoadPlan(d, j, l)
            == if l.visits == [] then Loading(FinishPlan(d, j, l), l.client.files)
               else if captured.end.Failed? then LoadPlan(d, j, Aborted(l))
               else VisitThen(d, j, l)
  {
    hide CapturePlan, FinishPlan, Refreshed, Written, Guarded, Aborted;
  }

  /** The parts of a load that starts with a successful capture. */
  function Refreshment(d: Disk, j: Journal, l: Load): Plan
    requires l.visits != []
  {
    var captured := CapturePlan(j, l.initial, l.client.files);
    Refreshed(Written(d, captured.items), captured.mem, l.client.files, l.visits[0].nonce, Begun(l).publishing)
  }

  function VisitThen(d: Disk, j: Journal, l: Load): Loading
    requires l.visits != []
  {
    var captured := CapturePlan(j, l.initial, l.client.files);
    var d1 := Written(d, captured.items);
    var refreshed := Refreshment(d, j, l);
    var rest := LoadPlan(Written(d1, refreshed.items), refreshed.mem, NextLoad(Begun(l), refreshed));
    rest.(plan := Before(Guarded(d, captured.items, Aborted(l)) + Guarded(d1, refreshed.items, Aborted(Begun(l))), rest.plan))
  }

  /** One request whose capture succeeds, and everything after it. */
  lemma {:induction false} VisitCarries(p: Policy, env: Env, s: State, j: Journal, l: Load)
    requires ValidPolicy(p) && Inv(p, env, s) && Leading(p, s, j) && ClientOk(p, l, j.roots) && l.visits != []
    requires CapturePlan(j, l.initial, l.client.files).end.Finished?
    ensures Loaded(p, env, s, j, VisitThen(s.disk, j, l))
    decreases |l.visits|, 0, 1
  {
    hide Inv, Leading, ValidPolicy, ClientOk, Captured, CapturePlan, Refreshed, Carries, FinishPlan, LoadPlan, Begun, Aborted,
         After, Steady, Guarded, Safe, Answered, NextLoad, Chain;
    var captured := CapturePlan(j, l.initial, l.client.files);
    var begun := Begun(l);
    BegunSame(p, l);
    CaptureCarries(p, env, s, j, l);
    CarriesEnds(p, env, s, j, captured);
    var s1 := After(s, captured.items);
    var refreshed := Refreshment(s.disk, j, l);
    RefreshCarries(p, env, s1, captured.mem, l.client.files, l.visits[0].nonce, begun.publishing);
    CarriesEnds(p, env, s1, captured.mem, refreshed);
    var s2 := After(s1, refreshed.items);
    var next := NextLoad(begun, refreshed);
    NextLoadOk(p, env, s2, begun, refreshed);
    LoadCarries(p, env, s2, refreshed.mem, next);
    AbortedShorter(l);
    AbortedShorter(begun);
    AbortedOk(p, l, j.roots);
    AbortedOk(p, l, captured.mem.roots);
    AbortedOk(p, begun, captured.mem.roots);
    VisitJoins(p, env, s, j, l);
  }

  /** The guarded writes of one request, before the rest of its load. */
  lemma {:induction false} VisitJoins(p: Policy, env: Env, s: State, j: Journal, l: Load)
    requires ValidPolicy(p) && l.visits != []
    requires var captured := CapturePlan(j, l.initial, l.client.files);
             var s1 := After(s, captured.items);
             var refreshed := Refreshment(s.disk, j, l);
             var s2 := After(s1, refreshed.items);
             && ClientOk(p, Aborted(l), j.roots) && ClientOk(p, Aborted(l), captured.mem.roots)
             && ClientOk(p, Aborted(Begun(l)), captured.mem.roots)
             && Steady(p, env, s, captured.items, {j.roots, captured.mem.roots}) && Carries(p, env, s, j, captured)
             && s1.disk == Written(s.disk, captured.items)
             && Steady(p, env, s1, refreshed.items, {captured.mem.roots}) && Carries(p, env, s1, captured.mem, refreshed)
             && s2.disk == Written(s1.disk, refreshed.items)
             && Loaded(p, env, s2, refreshed.mem, LoadPlan(s2.disk, refreshed.mem, NextLoad(Begun(l), refreshed)))
             && |Aborted(l).visits| < |l.visits| && |Aborted(Begun(l)).visits| < |l.visits|
    ensures Loaded(p, env, s, j, VisitThen(s.disk, j, l))
    decreases |l.visits|, 0, 0
  {
    hide Inv, Leading, ValidPolicy, ClientOk, Captured, CapturePlan, Refreshment, LoadPlan, Begun, Aborted,
         After, Steady, Guarded, Safe, NextLoad, Newer, Forward, Framed;
    var captured := CapturePlan(j, l.initial, l.client.files);
    var s1 := After(s, captured.items);
    var refreshed := Refreshment(s.disk, j, l);
    var s2 := After(s1, refreshed.items);
    var rest := LoadPlan(s2.disk, refreshed.mem, NextLoad(Begun(l), refreshed));
    var a, b := Guarded(s.disk, captured.items, Aborted(l)), Guarded(s1.disk, refreshed.items, Aborted(Begun(l)));
    GuardedSafe(p, env, s1, refreshed.items, Aborted(Begun(l)), {captured.mem.roots}, rest.plan.items);
    GuardedWrites(s1.disk, refreshed.items, Aborted(Begun(l)), s1);
    AfterConcat(s1, b, rest.plan.items);
    GuardedSafe(p, env, s, captured.items, Aborted(l), {j.roots, captured.mem.roots}, b + rest.plan.items);
    GuardedWrites(s.disk, captured.items, Aborted(l), s);
    AfterConcat(s, a, b + rest.plan.items);
    assert a + (b + rest.plan.items) == a + b + rest.plan.items;
    NewerTrans(j, captured.mem, refreshed.mem);
    NewerTrans(j, refreshed.mem, rest.plan.mem);
    FramedTrans(s, s1, s2);
    FramedTrans(s, s2, After(s2, rest.plan.items));
  }

  lemma FramedTrans(a: State, b: State, c: State)
    requires Framed(a, b) && Framed(b, c)
    ensures Framed(a, c)
  {
  }

  lemma BegunSame(p: Policy, l: Load)
    requires l.visits != []
    ensures Begun(l).client == l.client && Begun(l).visits == l.visits && Begun(l).initial == l.initial
    ensures forall roots :: ClientOk(p, Begun(l), roots) == ClientOk(p, l, roots)
  {
  }

  lemma NextLoadOk(p: Policy, env: Env, s: State, l: Load, refreshed: Plan)
    requires l.visits != [] && Leading(p, s, refreshed.mem) && ClientOk(p, l, refreshed.mem.roots)
    ensures ClientOk(p, NextLoad(l, refreshed), refreshed.mem.roots)
  {
    assert Chain(p.bootstrap, refreshed.mem.roots);
    hide ClientOk, Chain, Leading, Aborted, Answered;
    AbortedOk(p, l, refreshed.mem.roots);
    AnsweredOk(p, l, refreshed.mem.roots);
  }

  // ---- staging and adopting -----------------------------------------------------------------------------------

  lemma StageCarries(p: Policy, env: Env, s: State, j: Journal, staging: string)
    requires Inv(p, env, s) && Leading(p, s, j)
    ensures Carries(p, env, s, j, StagePlan(s.disk, j, staging))
  {
    var plan := StagePlan(s.disk, j, staging);
    NewerRefl(j);
    if plan.items == [] {
      hide Inv, Leading, Carries;
      CarriesNil(p, env, s, j, plan.end);
    } else {
      var s2 := Do(Do(s, MakeGeneration(staging)), FillGeneration(staging, Staged(j)));
      hide Inv, Leading, Newer, Forward, Safe, Do, After, Steady, Framed;
      if Inv(p, env, s2) && Leading(p, s2, j) && Framed(s, s2) {
        SteadyNil(p, env, s2, {j.roots});
      }
      FilledSteady(p, env, s, j, Staged(j), staging, [], {j.roots});
      AfterNil(s2);
      assert plan.items + [] == plan.items;
      SteadySafe(p, env, s, plan.items, {j.roots});
    }
  }

  lemma AdoptedLeads(p: Policy, s: State, j: Journal, o: Offer, now: nat)
    requires Leading(p, s, j) && AcceptRelease(p, j, o, now).Ok?
    ensures var next := AcceptRelease(p, j, o, now).value;
            && Leading(p, s, next) && Newer(j, next) && Forward(j, next)
            && next.roots == j.roots && Candidate(next) == Artifact(o.digest, o.release.sequence)
  {
    var next := AcceptRelease(p, j, o, now).value;
    assert Newer(j, next) && Forward(j, next) && Grounded(p, next) by {
      hide ValidDigest, TrustKept;
    }
    assert TrustKept(p, s.disk.(journal := next)) by {
      hide AcceptRelease, Chain;
    }
    hide AcceptRelease, Grounded, TrustKept;
    NewerTrans(s.disk.journal, j, next);
  }

  /** What a finished fetch has made durable. */
  ghost predicate Fetched(p: Policy, env: Env, s: State, j: Journal, plan: Plan) {
    && Carries(p, env, s, j, plan)
    && Holding(p, After(s, plan.items), plan.mem)
    && Candidate(plan.mem).digest in After(s, plan.items).disk.objects
  }

  /** A plan that is safe in any case, and complete if it finishes. */
  ghost predicate Fetches(p: Policy, env: Env, s: State, j: Journal, plan: Plan) {
    && Safe(p, env, s, plan.items) && AllReturning(plan.items)
    && (plan.end.Finished? ==> Fetched(p, env, s, j, plan))
  }

  lemma FetchesStop(p: Policy, env: Env, s: State, j: Journal, m: Journal, e: Error)
    requires Inv(p, env, s)
    ensures Fetches(p, env, s, j, Stop(m, e))
  {
    hide Inv;
    SafeNil(p, env, s);
  }

  /** The same composition as `CarriesThen`, when the second plan may fail anywhere. */
  lemma FetchesThen(p: Policy, env: Env, s: State, j: Journal, first: Plan, rest: Plan)
    requires Carries(p, env, s, j, first) && Fetches(p, env, After(s, first.items), first.mem, rest)
    ensures Fetches(p, env, s, j, Before(first.items, rest))
  {
    hide Inv, Safe, Newer, Forward, Leading, After, Holding;
    AfterConcat(s, first.items, rest.items);
    ReturningConcat(p, env, s, first.items, rest.items);
    if rest.end.Finished? {
      hide Carries;
      CarriesThen(p, env, s, j, first, rest);
    }
  }

  /** A plan that failed is safe as far as it went. */
  lemma FetchesFailed(p: Policy, env: Env, s: State, j: Journal, plan: Plan)
    requires Carries(p, env, s, j, plan) && plan.end.Failed?
    ensures Fetches(p, env, s, j, plan)
  {
    hide Inv, Safe, Reaches;
  }

  /** The payload, once the adopted release is what the disk holds. */
  lemma PayloadCarries(p: Policy, env: Env, s: State, j: Journal, digest: Digest)
    requires Inv(p, env, s) && Leading(p, s, j) && Holding(p, s, j) && Candidate(j).digest == digest
    ensures Fetches(p, env, s, j, Plan([Leave(PutObject(digest), j)], j, Finished))
  {
    var item := Leave(PutObject(digest), j);
    var t := Do(s, item.write);
    assert digest in t.disk.objects && Aside(s, j, item.write) && t.disk.journal == s.disk.journal;
    NewerRefl(j);
    hide Inv, Leading, Newer, Forward, Grounded, Permitted, Do;
    LeadingAside(p, env, s, j, item.write);
    SteadyNil(p, env, t, {j.roots});
    SteadyCons(p, env, s, item, [], {j.roots});
    assert [item] + [] == [item];
    AfterNil(t);
    hide After, Safe, Steady;
    SteadySafe(p, env, s, [item], {j.roots});
  }

  lemma AdoptCarries(p: Policy, env: Env, s: State, j: Journal, f: Fetch, files: Inventory, offer: Option<Offer>)
    requires ValidPolicy(p) && Inv(p, env, s) && Leading(p, s, j) && Captured(j, files)
    ensures Fetches(p, env, s, j, AdoptPlan(p, s.disk, j, f, files, offer))
  {
    var accepted := if offer.Some? then AcceptRelease(p, j, offer.value, f.acceptedAt) else Err(PolicyRejected);
    hide Inv, Leading, ValidPolicy, Captured, AcceptRelease, PublishPlan, Carries, Fetches, After, Holding;
    if accepted.Err? {
      FetchesStop(p, env, s, j, j, accepted.error);
    } else {
      var next := accepted.value;
      AdoptedLeads(p, s, j, offer.value, f.acceptedAt);
      SameFiles(j, next, files);
      PublishCarries(p, env, s, next, files, f.accepted);
      var committed := PublishPlan(s.disk, next, files, f.accepted);
      AdoptedCarries(p, env, s, j, next, committed);
      if committed.end.Failed? {
        FetchesFailed(p, env, s, j, committed);
      } else {
        var t := After(s, committed.items);
        CarriesEnds(p, env, s, next, committed);
        if f.payload {
          PayloadCarries(p, env, t, committed.mem, offer.value.digest);
        } else {
          FetchesStop(p, env, t, committed.mem, committed.mem, PolicyRejected);
        }
        FetchesThen(p, env, s, j, committed,
          if f.payload then Plan([Leave(PutObject(offer.value.digest), committed.mem)], committed.mem, Finished)
          else Stop(committed.mem, PolicyRejected));
      }
    }
  }

  lemma SameFiles(a: Journal, b: Journal, files: Inventory)
    requires b.roots == a.roots
    ensures Captured(a, files) == Captured(b, files)
  {
  }

  lemma AdoptedCarries(p: Policy, env: Env, s: State, j: Journal, next: Journal, plan: Plan)
    requires Carries(p, env, s, next, plan) && Newer(j, next) && Forward(j, next)
    ensures Carries(p, env, s, j, plan)
  {
    hide Inv, Safe, Leading, After, Newer, Forward;
    NewerTrans(j, next, plan.mem);
  }

  lemma ReleaseCarries(p: Policy, env: Env, s: State, j: Journal, f: Fetch, files: Inventory)
    requires ValidPolicy(p) && Inv(p, env, s) && Leading(p, s, j) && Captured(j, files)
    ensures Fetches(p, env, s, j, ReleasePlan(p, s.disk, j, f, files))
  {
    hide Inv, Leading, ValidPolicy, Captured, PublishPlan, AdoptPlan, Carries, Fetches, After, Holding;
    if f.repository.Unloadable? {
      FetchesStop(p, env, s, j, j, Failure);
    } else {
      var published := PublishPlan(s.disk, j, files, f.published);
      PublishCarries(p, env, s, j, files, f.published);
      if published.end.Failed? {
        FetchesFailed(p, env, s, j, published);
      } else {
        var t := After(s, published.items);
        CarriesEnds(p, env, s, j, published);
        SameRoots(j, published.mem, files);
        AdoptCarries(p, env, t, published.mem, f, files, f.repository.offer);
        FetchesThen(p, env, s, j, published, AdoptPlan(p, t.disk, published.mem, f, files, f.repository.offer));
      }
    }
  }

  /** Everything after the staging directory. */
  lemma DownloadCarries(p: Policy, env: Env, s: State, j: Journal, f: Fetch)
    requires ValidPolicy(p) && Inv(p, env, s) && Leading(p, s, j)
    ensures Fetches(p, env, s, j, DownloadPlan(p, s.disk, j, f))
  {
    OpeningOk(p, env, s, j, f);
    hide Inv, Leading, ValidPolicy, Captured, LoadPlan, ReleasePlan, Carries, Fetches, After, Opening, ClientOk;
    var loading := LoadPlan(s.disk, j, Opening(p, j, f));
    LoadCarries(p, env, s, j, Opening(p, j, f));
    if loading.plan.end.Failed? {
      FetchesFailed(p, env, s, j, loading.plan);
    } else {
      var t := After(s, loading.plan.items);
      CarriesEnds(p, env, s, j, loading.plan);
      ReleaseCarries(p, env, t, loading.plan.mem, f, loading.files);
      FetchesThen(p, env, s, j, loading.plan, ReleasePlan(p, t.disk, loading.plan.mem, f, loading.files));
    }
  }

  /**
   * A whole fetch: every write is safe wherever the power goes or an error is reported, including the
   * writes of a load that goes on after one of its requests failed; a finished one has its candidate
   * stored and its trust saved.
   */
  lemma FetchCarries(p: Policy, env: Env, s: State, j: Journal, f: Fetch)
    requires ValidPolicy(p) && Inv(p, env, s) && Holding(p, s, j)
    ensures Fetches(p, env, s, j, FetchPlan(p, s.disk, j, f))
  {
    HoldingLeads(p, env, s, j);
    hide Inv, Leading, ValidPolicy, StagePlan, DownloadPlan, Carries, Fetches, After, Holding;
    if SaturatingAdd(f.now, TIME_SKEW_SECS) < j.timeHigh {
      FetchesStop(p, env, s, j, j, PolicyRejected);
    } else {
      var staged := StagePlan(s.disk, j, f.staging);
      StagedSame(s.disk, j, f.staging);
      StageCarries(p, env, s, j, f.staging);
      if staged.end.Failed? {
        FetchesFailed(p, env, s, j, staged);
      } else {
        var t := After(s, staged.items);
        CarriesEnds(p, env, s, j, staged);
        DownloadCarries(p, env, t, j, f);
        FetchesThen(p, env, s, j, staged, DownloadPlan(p, t.disk, j, f));
      }
    }
  }

  lemma StagedSame(d: Disk, j: Journal, staging: string)
    ensures StagePlan(d, j, staging).mem == j
  {
  }
}
