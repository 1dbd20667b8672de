/**
 * Where candidates come from: whatever a command stores, adopts or begins to try was offered to it as a
 * release of this product, for this channel and this target.
 */
module Origins {
  import opened Options
  import opened AgentUpdate
  import opened LocalPolicy
  import opened Trust
  import opened Journals
  import opened Disks
  import opened Hosts
  import opened Activate
  import opened Download
  import opened Runtime
  import opened Worlds
  import opened Commands
  import opened Runs
  import LatchedCommits

  // ---- what may be accepted ----------------------------------------------------------------------------

  predicate Alphanumeric(c: char) {
    'a' <= c <= 'z' || 'A' <= c <= 'Z' || '0' <= c <= '9'
  }

  /** A signed release of the agent for the policy's own channel and target, of plausible numbers and size. */
  predicate Ours(p: Policy, o: Offer) {
    var r := o.release;
    && r.product == "nodelite" && r.component == "agent" && r.channel == p.channel && r.target == p.target
    && 0 < |r.version| <= 64
    && (forall i | 0 <= i < |r.version| ::
          Alphanumeric(r.version[i]) || r.version[i] == '.' || r.version[i] == '-' || r.version[i] == '_')
    && 0 < r.minRollback <= r.sequence < 0x20_0000_0000_0000
    && |o.digest| == 64 && (forall i | 0 <= i < 64 :: o.digest[i] in "0123456789abcdef")
    && 1 <= o.length <= 32 * 1024 * 1024 && o.consistent
  }

  /** The release is not older than the newest seen, not another of its number, and does not revoke what is installed. */
  predicate Onward(j: Journal, o: Offer) {
    && (o.release.sequence > j.seenSequence || (o.release.sequence == j.seenSequence && o.digest == j.seenDigest))
    && j.installed.sequence >= o.release.minRollback
  }

  /** Exactly which offers are accepted, and what is remembered of one. */
  lemma AcceptedIff(p: Policy, j: Journal, o: Offer, now: nat)
    ensures var r := AcceptRelease(p, j, o, now);
            && (r.Ok? <==> Ours(p, o) && Onward(j, o))
            && (r.Err? ==> r.error == PolicyRejected)
            && (r.Ok? ==>
                  var m := r.value;
                  && m.seenSequence == o.release.sequence && m.seenDigest == o.digest
                  && m.hardFloor >= j.hardFloor && m.hardFloor >= o.release.minRollback && m.hardFloor >= p.minimumSequence
                  && m.hardFloor in {j.hardFloor, o.release.minRollback, p.minimumSequence}
                  && m.timeHigh >= now && m.timeHigh >= j.timeHigh && m.timeHigh in {now, j.timeHigh}
                  && m == j.(seenSequence := m.seenSequence, seenDigest := m.seenDigest, hardFloor := m.hardFloor,
                             timeHigh := m.timeHigh))
  {
    HexDigits(o.digest);
  }

  // ---- writes that bring in nothing else -----------------------------------------------------------------

  predicate Offered(p: Policy, o: Option<Offer>, digest: Digest, sequence: nat) {
    o.Some? && Ours(p, o.value) && o.value.digest == digest && o.value.release.sequence == sequence
  }

  /** What `m` has seen and tries is what `j` had seen and tried, or the release offered now. */
  predicate Traced(p: Policy, o: Option<Offer>, j: Journal, m: Journal) {
    && ((m.seenDigest == j.seenDigest && m.seenSequence == j.seenSequence) || Offered(p, o, m.seenDigest, m.seenSequence))
    && (m.tx.Some? ==>
          || (j.tx.Some? && m.tx.value.to == j.tx.value.to)
          || Offered(p, o, m.tx.value.to.digest, m.tx.value.to.sequence))
  }

  predicate TracedItem(p: Policy, o: Option<Offer>, j: Journal, item: Item)
    decreases item
  {
    && (item.write.SaveJournal? ==> Traced(p, o, j, item.write.state))
    && (item.write.PutObject? ==> o.Some? && Ours(p, o.value) && item.write.digest == o.value.digest)
    && (item.fault.Latching? ==> Traced(p, o, j, item.mem))
    && (item.fault.Rescued? ==> TracedItems(p, o, j, item.fault.lost.items) && TracedItems(p, o, j, item.fault.torn.items))
  }

  /** Also when they fail. */
  predicate TracedItems(p: Policy, o: Option<Offer>, j: Journal, items: seq<Item>)
    decreases items
  {
    forall i | 0 <= i < |items| :: TracedItem(p, o, j, items[i])
  }

  predicate TracedWrite(p: Policy, o: Option<Offer>, j: Journal, w: Write) {
    && (w.SaveJournal? ==> Traced(p, o, j, w.state))
    && (w.PutObject? ==> o.Some? && Ours(p, o.value) && w.digest == o.value.digest)
  }

  predicate TracedWrites(p: Policy, o: Option<Offer>, j: Journal, ws: seq<Write>) {
    forall i | 0 <= i < |ws| :: TracedWrite(p, o, j, ws[i])
  }

  lemma LatchTraced(p: Policy, o: Option<Offer>, j: Journal, mem: Journal, e: Error)
    requires Traced(p, o, j, mem)
    ensures TracedItems(p, o, j, LatchItems(mem, e))
  {
  }

  lemma TracedConcat(p: Policy, o: Option<Offer>, j: Journal, a: seq<Item>, b: seq<Item>)
    requires TracedItems(p, o, j, a) && TracedItems(p, o, j, b)
    ensures TracedItems(p, o, j, a + b)
  {
    hide TracedItem;
  }

  lemma TracedNil(p: Policy, o: Option<Offer>, j: Journal)
    ensures TracedItems(p, o, j, [])
  {
  }

  lemma LeaveTraced(p: Policy, o: Option<Offer>, j: Journal, w: Write, mem: Journal)
    requires TracedWrite(p, o, j, w)
    ensures TracedItems(p, o, j, [Leave(w, mem)])
  {
    hide Traced, Ours;
  }

  lemma {:induction false} ExecuteTraced(p: Policy, o: Option<Offer>, j: Journal, items: seq<Item>, io: seq<Io>)
    requires TracedItems(p, o, j, items)
    ensures TracedWrites(p, o, j, Execute(items, io).writes)
    decreases |io|
  {
    hide TracedItem, Traced, LatchItems, Ours;
    if items != [] && io != [] {
      var item := items[0];
      assert TracedItem(p, o, j, item);
      assert TracedItems(p, o, j, items[1..]) by {
        assert forall i | 0 <= i < |items[1..]| :: items[1..][i] == items[i + 1];
      }
      RescueTraced(p, o, j, item);
      var rest := if io[0].Done? || item.fault.Ignored? then items[1..]
                  else if item.fault.Returning? then []
                  else if item.fault.Rescued? then Rescue(item.fault, io[0]).items
                  else LatchItems(item.mem, Failure);
      ExecuteTraced(p, o, j, rest, io[1..]);
    }
  }

  lemma RescueTraced(p: Policy, o: Option<Offer>, j: Journal, item: Item)
    requires TracedItem(p, o, j, item)
    ensures item.fault.Rescued? ==> forall io: Io :: TracedItems(p, o, j, Rescue(item.fault, io).items)
    ensures item.fault.Latching? ==> TracedItems(p, o, j, LatchItems(item.mem, Failure))
    ensures TracedWrite(p, o, j, item.write)
  {
    if item.fault.Latching? {
      LatchTraced(p, o, j, item.mem, Failure);
    }
  }

  /** `m` has seen and tries the same as `a`. */
  predicate SameNews(a: Journal, m: Journal) {
    m.seenDigest == a.seenDigest && m.seenSequence == a.seenSequence && m.tx == a.tx
  }

  // ---- fetching -------------------------------------------------------------------------------------------

  predicate SameItems(j: Journal, items: seq<Item>) {
    forall i | 0 <= i < |items| ::
      && SameNews(j, items[i].mem) && items[i].fault.Returning?
      && !items[i].write.PutObject?
      && (items[i].write.SaveJournal? ==> SameNews(j, items[i].write.state))
  }

  lemma SameTraced(p: Policy, o: Option<Offer>, b: Journal, j: Journal, items: seq<Item>)
    requires Traced(p, o, b, j) && SameItems(j, items)
    ensures TracedItems(p, o, b, items)
  {
    hide Offered, Ours;
  }

  lemma CaptureSame(j: Journal, initial: Root, files: Inventory)
    ensures var plan := CapturePlan(j, initial, files); SameItems(j, plan.items) && SameNews(j, plan.mem)
  {
    hide Continues, SelfSigned;
  }

  lemma PublishSame(d: Disk, j: Journal, files: Inventory, nonce: string)
    ensures var plan := PublishPlan(d, j, files, nonce); SameItems(j, plan.items) && SameNews(j, plan.mem)
  {
  }

  lemma RefreshSame(d: Disk, j: Journal, files: Inventory, nonce: string, publishing: bool)
    ensures var plan := Refreshed(d, j, files, nonce, publishing); SameItems(j, plan.items) && SameNews(j, plan.mem)
  {
    PublishSame(d, j, files, nonce);
    hide PublishPlan;
  }

  lemma TracedSame(p: Policy, o: Option<Offer>, b: Journal, j: Journal, m: Journal)
    requires Traced(p, o, b, j) && SameNews(j, m)
    ensures Traced(p, o, b, m)
  {
    hide Offered;
  }

  lemma {:induction false} GuardedTraced(p: Policy, o: Option<Offer>, b: Journal, j: Journal, d: Disk, items: seq<Item>, l: Load)
    requires Traced(p, o, b, j) && SameItems(j, items)
    ensures TracedItems(p, o, b, Guarded(d, items, l))
    decreases |l.visits|, 2, |items|
  {
    hide LoadPlan, Traced, Ours;
    if items == [] {
      TracedNil(p, o, b);
    } else {
      var next, mem := Apply(d, items[0].write), items[0].mem;
      TracedSame(p, o, b, j, mem);
      LoadTraced(p, o, b, d, mem, l);
      LoadTraced(p, o, b, next, mem, l);
      assert forall i | 0 <= i < |items[1..]| :: items[1..][i] == items[i + 1];
      GuardedTraced(p, o, b, j, next, items[1..], l);
      var first := Guarded(d, items, l)[0];
      if items[0].write.SaveJournal? {
        TracedSame(p, o, b, j, items[0].write.state);
      }
      assert first.write == items[0].write && TracedItem(p, o, b, first);
      assert Guarded(d, items, l) == [first] + Guarded(next, items[1..], l);
      hide TracedItem, Guarded;
      assert TracedItems(p, o, b, [first]);
      TracedConcat(p, o, b, [first], Guarded(next, items[1..], l));
    }
  }

  lemma {:induction false} LoadTraced(p: Policy, o: Option<Offer>, b: Journal, d: Disk, j: Journal, l: Load)
    requires Traced(p, o, b, j)
    ensures var plan := LoadPlan(d, j, l).plan; TracedItems(p, o, b, plan.items) && SameNews(j, plan.mem)
    decreases |l.visits|, 1, 0
  {
    hide CapturePlan, Refreshed, Guarded, Written, TracedItems, Traced, SameItems;
    var captured := CapturePlan(j, l.initial, l.client.files);
    var d1 := Written(d, captured.items);
    CaptureSame(j, l.initial, l.client.files);
    SameTraced(p, o, b, j, captured.items);
    TracedSame(p, o, b, j, captured.mem);
    if l.visits == [] {
      var refreshed := Refreshed(d1, captured.mem, l.client.files, l.finishing, l.publishing);
      RefreshSame(d1, captured.mem, l.client.files, l.finishing, l.publishing);
      SameTraced(p, o, b, captured.mem, refreshed.items);
      TracedConcat(p, o, b, captured.items, refreshed.items);
    } else if captured.end.Failed? {
      LoadTraced(p, o, b, d, j, Aborted(l));
    } else {
      VisitTraced(p, o, b, d, j, l);
    }
  }

  lemma {:induction false} VisitTraced(p: Policy, o: Option<Offer>, b: Journal, d: Disk, j: Journal, l: Load)
    requires Traced(p, o, b, j) && l.visits != [] && CapturePlan(j, l.initial, l.client.files).end.Finished?
    ensures var plan := LoadPlan(d, j, l).plan; TracedItems(p, o, b, plan.items) && SameNews(j, plan.mem)
    decreases |l.visits|, 0, 0
  {
    hide CapturePlan, Refreshed, Guarded, Written, TracedItems, Traced, SameItems;
    var captured := CapturePlan(j, l.initial, l.client.files);
    var d1 := Written(d, captured.items);
    CaptureSame(j, l.initial, l.client.files);
    TracedSame(p, o, b, j, captured.mem);
    var begun := Begun(l);
    var refreshed := Refreshed(d1, captured.mem, l.client.files, l.visits[0].nonce, begun.publishing);
    RefreshSame(d1, captured.mem, l.client.files, l.visits[0].nonce, begun.publishing);
    TracedSame(p, o, b, captured.mem, refreshed.mem);
    var rest := LoadPlan(Written(d1, refreshed.items), refreshed.mem, NextLoad(begun, refreshed));
    LoadTraced(p, o, b, Written(d1, refreshed.items), refreshed.mem, NextLoad(begun, refreshed));
    var first, second := Guarded(d, captured.items, Aborted(l)), Guarded(d1, refreshed.items, Aborted(begun));
    GuardedTraced(p, o, b, j, d, captured.items, Aborted(l));
    GuardedTraced(p, o, b, captured.mem, d1, refreshed.items, Aborted(begun));
    TracedConcat(p, o, b, first, second);
    TracedConcat(p, o, b, first + second, rest.plan.items);
    assert LoadPlan(d, j, l).plan == Before(first + second, rest.plan);
  }

  lemma AdoptTraced(p: Policy, b: Journal, d: Disk, j: Journal, f: Fetch, files: Inventory, o: Option<Offer>)
    requires Traced(p, o, b, j)
    ensures var plan := AdoptPlan(p, d, j, f, files, o);
            && TracedItems(p, o, b, plan.items) && plan.mem.tx == j.tx
            && (plan.end.Finished? ==> Offered(p, o, plan.mem.seenDigest, plan.mem.seenSequence))
  {
    TracedNil(p, o, b);
    if o.Some? {
      AcceptedIff(p, j, o.value, f.acceptedAt);
      hide PublishPlan, TracedItems, AcceptRelease, Ours, Onward, Written;
      var accepted := AcceptRelease(p, j, o.value, f.acceptedAt);
      if accepted.Ok? {
        var m := accepted.value;
        var committed := PublishPlan(d, m, files, f.accepted);
        PublishSame(d, m, files, f.accepted);
        assert Traced(p, o, b, m);
        SameTraced(p, o, b, m, committed.items);
        LeaveTraced(p, o, b, PutObject(o.value.digest), committed.mem);
        TracedConcat(p, o, b, committed.items, []);
        TracedConcat(p, o, b, committed.items, [Leave(PutObject(o.value.digest), committed.mem)]);
      }
    }
  }

  function OfferIn(f: Fetch): Option<Offer> {
    if f.repository.Loaded? then f.repository.offer else None
  }

  lemma ReleaseTraced(p: Policy, b: Journal, d: Disk, j: Journal, f: Fetch, files: Inventory)
    requires Traced(p, OfferIn(f), b, j)
    ensures var o := OfferIn(f); var plan := ReleasePlan(p, d, j, f, files);
            && TracedItems(p, o, b, plan.items) && plan.mem.tx == j.tx
            && (plan.end.Finished? ==> Offered(p, o, plan.mem.seenDigest, plan.mem.seenSequence))
  {
    hide PublishPlan, TracedItems, AdoptPlan, Written, Traced, Offered;
    var o := OfferIn(f);
    TracedNil(p, o, b);
    if f.repository.Loaded? {
      var published := PublishPlan(d, j, files, f.published);
      var d1 := Written(d, published.items);
      PublishSame(d, j, files, f.published);
      SameTraced(p, o, b, j, published.items);
      TracedSame(p, o, b, j, published.mem);
      AdoptTraced(p, b, d1, published.mem, f, files, o);
      TracedConcat(p, o, b, published.items, AdoptPlan(p, d1, published.mem, f, files, o).items);
    }
  }

  lemma StageSame(d: Disk, j: Journal, staging: string)
    ensures SameItems(j, StagePlan(d, j, staging).items) && StagePlan(d, j, staging).mem == j
  {
  }

  lemma FetchTraced(p: Policy, b: Journal, d: Disk, j: Journal, f: Fetch)
    requires Traced(p, OfferIn(f), b, j)
    ensures var o := OfferIn(f); var plan := FetchPlan(p, d, j, f);
            && TracedItems(p, o, b, plan.items) && plan.mem.tx == j.tx
            && (plan.end.Finished? ==> Offered(p, o, plan.mem.seenDigest, plan.mem.seenSequence))
  {
    hide StagePlan, LoadPlan, ReleasePlan, TracedItems, Written, Opening, Traced, Offered, SameItems;
    var o := OfferIn(f);
    TracedNil(p, o, b);
    var staged := StagePlan(d, j, f.staging);
    StageSame(d, j, f.staging);
    SameTraced(p, o, b, j, staged.items);
    var d1 := Written(d, staged.items);
    var loading := LoadPlan(d1, j, Opening(p, j, f));
    LoadTraced(p, o, b, d1, j, Opening(p, j, f));
    TracedSame(p, o, b, j, loading.plan.mem);
    var d2 := Written(d1, loading.plan.items);
    ReleaseTraced(p, b, d2, loading.plan.mem, f, loading.files);
    TracedConcat(p, o, b, loading.plan.items, ReleasePlan(p, d2, loading.plan.mem, f, loading.files).items);
    TracedConcat(p, o, b, staged.items, DownloadPlan(p, d1, j, f).items);
  }

  lemma {:induction false} DropsTraced(p: Policy, o: Option<Offer>, b: Journal, j: Journal, generations: seq<string>, objects: seq<Digest>)
    ensures TracedItems(p, o, b, GenerationItems(j, generations)) && TracedItems(p, o, b, ObjectItems(j, objects))
    decreases |generations| + |objects|
  {
    hide TracedItems, Traced, Ours;
    TracedNil(p, o, b);
    if generations != [] {
      DropsTraced(p, o, b, j, generations[1..], objects);
      LeaveTraced(p, o, b, DropGeneration(generations[0]), j);
      TracedConcat(p, o, b, [Leave(DropGeneration(generations[0]), j)], GenerationItems(j, generations[1..]));
    }
    if objects != [] {
      DropsTraced(p, o, b, j, generations, objects[1..]);
      LeaveTraced(p, o, b, DropObject(objects[0]), j);
      TracedConcat(p, o, b, [Leave(DropObject(objects[0]), j)], ObjectItems(j, objects[1..]));
    }
  }

  lemma FetchedTraced(p: Policy, b: Journal, d: Disk, j: Journal, s: Sweep, f: Fetch)
    requires Traced(p, OfferIn(f), b, j) && Terminal(j.phase)
    ensures var o := OfferIn(f); var plan := FetchedPlan(p, d, j, s, f);
            && TracedItems(p, o, b, plan.items) && plan.mem.tx == j.tx
            && (plan.end.Finished? ==> Offered(p, o, plan.mem.seenDigest, plan.mem.seenSequence))
  {
    hide FetchPlan, TracedItems, GenerationItems, ObjectItems, Written, Traced, Offered;
    var o := OfferIn(f);
    var x, y := GenerationItems(j, s.generations), ObjectItems(j, s.objects);
    DropsTraced(p, o, b, j, s.generations, s.objects);
    TracedConcat(p, o, b, x, y);
    FetchTraced(p, b, Written(d, x + y), j, f);
    TracedConcat(p, o, b, x + y, FetchPlan(p, Written(d, x + y), j, f).items);
  }

  // ---- preparing and reconciling --------------------------------------------------------------------------

  /** Every journal of the plan has seen what `j` has, and tries `to`. */
  predicate Tries(j: Journal, to: Artifact, m: Journal) {
    && m.seenDigest == j.seenDigest && m.seenSequence == j.seenSequence && m.tx.Some? && m.tx.value.to == to
  }

  predicate TryItems(j: Journal, to: Artifact, items: seq<Item>) {
    forall i | 0 <= i < |items| ::
      && Tries(j, to, items[i].mem) && items[i].fault.Latching? && !items[i].write.PutObject?
      && (items[i].write.SaveJournal? ==> items[i].write.state == items[i].mem)
  }

  lemma TriesTraced(p: Policy, o: Option<Offer>, b: Journal, j: Journal, items: seq<Item>)
    requires Traced(p, o, b, j) && j.tx.Some? && TryItems(j, j.tx.value.to, items)
    ensures TracedItems(p, o, b, items)
  {
    hide Offered;
  }

  lemma RestoreTries(d: Disk, j: Journal, h: Host)
    requires j.tx.Some?
    ensures var plan := RestorePlan(d, j, h); TryItems(j, j.tx.value.to, plan.items) && Tries(j, j.tx.value.to, plan.mem)
  {
    hide Health;
  }

  lemma RollbackTries(d: Disk, j: Journal, h: Host)
    requires j.tx.Some?
    ensures var plan := RollbackPlan(d, j, h); TryItems(j, j.tx.value.to, plan.items) && Tries(j, j.tx.value.to, plan.mem)
  {
    RestoreTries(d, j, h);
    if h.clock.Some? {
      RestoreTries(d, Intent(j, h.clock.value.third), h);
    }
    hide RestorePlan;
  }

  lemma JudgedTries(j: Journal, evidence: Option<Evidence>, now: nat, p: Policy)
    requires j.tx.Some?
    ensures Tries(j, j.tx.value.to, Judged(j, Judge(j.tx.value, evidence, now, p)))
  {
  }

  lemma TryAfter(j: Journal, b: Journal, saved: seq<Item>, rest: seq<Item>)
    requires j.tx.Some? && Tries(j, j.tx.value.to, b) && (saved == [] || saved == [Save(b)]) && TryItems(b, b.tx.value.to, rest)
    ensures TryItems(j, j.tx.value.to, saved + rest)
  {
  }

  lemma TrialTries(p: Policy, d: Disk, j: Journal, h: Host)
    requires j.tx.Some? && j.phase == Phase.Trial
    ensures var plan := TrialPlan(d, j, h, p); TryItems(j, j.tx.value.to, plan.items) && Tries(j, j.tx.value.to, plan.mem)
  {
    RollbackTries(d, j, h);
    if h.trial.Some? {
      var evidence := TrialEvidence(d.active, j.tx.value, h.trial.value);
      var now := if h.clock.Some? then h.clock.value.first else 0;
      var v := Judge(j.tx.value, evidence, now, p);
      JudgedTries(j, evidence, now, p);
      var b := Judged(j, v);
      var saved := if v.Keep? then [] else [Save(b)];
      RollbackTries(d, b, h);
      hide RollbackPlan;
      TryAfter(j, b, saved, RollbackPlan(d, b, h).items);
      TryAfter(j, b, saved, []);
      assert saved + [] == saved;
    }
    hide RollbackPlan, TrialEvidence, Judge, Judged;
  }

  lemma OpenTries(p: Policy, d: Disk, j: Journal, h: Host)
    requires j.tx.Some? && Open(j.phase)
    ensures var plan := ReconcilePlan(d, j, h, p); TryItems(j, j.tx.value.to, plan.items) && Tries(j, j.tx.value.to, plan.mem)
  {
    hide RollbackPlan, TrialPlan, Stopped, StopAcknowledged, Completed;
    if j.phase == Phase.Trial {
      TrialTries(p, d, j, h);
    }
    RollbackTries(d, j, h);
  }

  lemma SettledTraced(p: Policy, o: Option<Offer>, b: Journal, plan: Plan)
    requires TracedItems(p, o, b, plan.items) && Traced(p, o, b, plan.mem)
    ensures TracedItems(p, o, b, Settled(plan).items)
  {
    TidyTraced(p, o, b, plan.mem);
    hide TracedItems, Traced, LatchItems, Tidy;
    if plan.end.Finished? {
      TracedConcat(p, o, b, plan.items, Tidy(plan.mem));
    } else {
      LatchTraced(p, o, b, plan.mem, plan.end.error);
      TracedConcat(p, o, b, plan.items, LatchItems(plan.mem, plan.end.error));
    }
  }

  lemma TidyTraced(p: Policy, o: Option<Offer>, b: Journal, mem: Journal)
    ensures TracedItems(p, o, b, Tidy(mem)) && TracedItems(p, o, b, [])
  {
  }

  lemma ReconcileTraced(p: Policy, o: Option<Offer>, b: Journal, d: Disk, j: Journal, h: Host)
    requires Traced(p, o, b, j)
    ensures TracedItems(p, o, b, Settled(ReconcilePlan(d, j, h, p)).items)
  {
    var plan := ReconcilePlan(d, j, h, p);
    TracedNil(p, o, b);
    if Open(j.phase) && j.tx.Some? {
      OpenTries(p, d, j, h);
      TriesTraced(p, o, b, j, plan.items);
      assert Traced(p, o, b, plan.mem) by {
        hide ReconcilePlan, Offered;
      }
    } else {
      assert plan.items == [] && plan.mem == j;
    }
    hide ReconcilePlan, TracedItems, Traced;
    SettledTraced(p, o, b, plan);
  }

  lemma PreparedNews(d: Disk, j: Journal, h: Host, p: Policy)
    ensures var plan := PreparePlan(d, j, h, p, Candidate(j));
            && News(j, plan.mem)
            && forall i | 0 <= i < |plan.items| ::
                 && News(j, plan.items[i].mem) && plan.items[i].fault.Latching? && !plan.items[i].write.PutObject?
                 && (plan.items[i].write.SaveJournal? ==> plan.items[i].write.state == plan.items[i].mem)
  {
    hide MayPrepare;
  }

  predicate News(j: Journal, m: Journal) {
    && m.seenDigest == j.seenDigest && m.seenSequence == j.seenSequence
    && (m.tx == j.tx || (m.tx.Some? && m.tx.value.to == Artifact(j.seenDigest, j.seenSequence)))
  }

  /** A preparation tries the release that was just offered. */
  lemma PrepareTraced(p: Policy, o: Option<Offer>, b: Journal, d: Disk, j: Journal, h: Host)
    requires Traced(p, o, b, j) && Offered(p, o, j.seenDigest, j.seenSequence)
    ensures TracedItems(p, o, b, Settled(PreparePlan(d, j, h, p, Candidate(j))).items)
  {
    hide PreparePlan, Traced, Offered, Ours, News;
    var plan := PreparePlan(d, j, h, p, Candidate(j));
    PreparedNews(d, j, h, p);
    forall m | News(j, m) ensures Traced(p, o, b, m) {
      NewsTraced(p, o, b, j, m);
    }
    assert TracedItems(p, o, b, plan.items);
    hide TracedItems;
    SettledTraced(p, o, b, plan);
  }

  lemma NewsTraced(p: Policy, o: Option<Offer>, b: Journal, j: Journal, m: Journal)
    requires Traced(p, o, b, j) && Offered(p, o, j.seenDigest, j.seenSequence) && News(j, m)
    ensures Traced(p, o, b, m)
  {
    hide Offered;
  }

  lemma FollowingTraced(p: Policy, o: Option<Offer>, b: Journal, d: Disk, m: Journal, h: Host)
    requires Traced(p, o, b, m) && Offered(p, o, m.seenDigest, m.seenSequence)
    ensures TracedItems(p, o, b, Following(p, d, m, h))
  {
    var current := MarkUpToDate(m);
    assert SameNews(m, current);
    hide PreparePlan, Settled, TracedItems, Traced, Offered, Ours;
    PrepareTraced(p, o, b, d, m, h);
    TracedSame(p, o, b, m, current);
    LeaveTraced(p, o, b, SaveJournal(current), current);
    TidyTraced(p, o, b, current);
    TracedConcat(p, o, b, [Leave(SaveJournal(current), current)], Tidy(current));
  }

  // ---- whole commands ---------------------------------------------------------------------------------------

  function OfferTo(c: Command): Option<Offer> {
    match c
    case Fetching(_, f) => OfferIn(f)
    case Upgrade(_, f, _) => OfferIn(f)
    case Remote(_, _, _, f, _) => OfferIn(f)
    case _ => None
  }

  lemma SelfTraced(p: Policy, o: Option<Offer>, j: Journal, m: Journal)
    requires SameNews(j, m)
    ensures Traced(p, o, j, m)
  {
  }

  lemma UpgradeTraced(p: Policy, b: Journal, d: Disk, s: Sweep, f: Fetch, h: Host)
    requires Traced(p, OfferIn(f), b, d.journal)
    ensures TracedItems(p, OfferIn(f), b, UpgradeScript(p, d, s, f, h).items)
  {
    hide FetchedPlan, UpgradeScript, Following, TracedItems, Written, Traced, Offered;
    var o := OfferIn(f);
    TracedNil(p, o, b);
    if d.latched || !Terminal(d.journal.phase) {
      LatchedCommits.NoUpgrade(p, d, s, f, h);
    } else {
      UpgradeItems(p, d, s, f, h);
      FetchedTraced(p, b, d, d.journal, s, f);
      var fetched := FetchedPlan(p, d, d.journal, s, f);
      if fetched.end.Finished? {
        assert Traced(p, o, b, fetched.mem) by {
          AdoptedTraced(p, o, b, d.journal, fetched.mem);
        }
        FollowingTraced(p, o, b, Written(d, fetched.items), fetched.mem, h);
        TracedConcat(p, o, b, fetched.items, Following(p, Written(d, fetched.items), fetched.mem, h));
      }
    }
  }

  lemma AdoptedTraced(p: Policy, o: Option<Offer>, b: Journal, j: Journal, m: Journal)
    requires Traced(p, o, b, j) && m.tx == j.tx && Offered(p, o, m.seenDigest, m.seenSequence)
    ensures Traced(p, o, b, m)
  {
    hide Offered;
  }

  lemma DownloadTraced(p: Policy, b: Journal, d: Disk, s: Sweep, f: Fetch)
    requires Traced(p, OfferIn(f), b, d.journal)
    ensures TracedItems(p, OfferIn(f), b, FetchScript(p, d, s, f).items)
  {
    hide FetchedPlan, TracedItems, Tidy, Traced, Offered;
    var o := OfferIn(f);
    TracedNil(p, o, b);
    if !d.latched && Terminal(d.journal.phase) {
      var fetched := FetchedPlan(p, d, d.journal, s, f);
      FetchedTraced(p, b, d, d.journal, s, f);
      TidyTraced(p, o, b, fetched.mem);
      TracedConcat(p, o, b, fetched.items, Tidy(fetched.mem));
    }
  }

  lemma ReconcileScriptTraced(p: Policy, o: Option<Offer>, b: Journal, d: Disk, boot: bool, h: Host)
    requires Traced(p, o, b, d.journal)
    ensures TracedItems(p, o, b, ReconcileScript(p, d, boot, h).items)
  {
    var j := d.journal;
    var m := RecoverDownload(j);
    assert SameNews(j, m);
    hide Settled, ReconcilePlan, TracedItems, BootItems, Tidy, Written, Traced, RecoverDownload, Ours;
    var saves := if m == j then [] else [Leave(SaveJournal(m), m)];
    TracedSame(p, o, b, j, m);
    TracedNil(p, o, b);
    BootTraced(p, o, b, boot, j);
    TidyTraced(p, o, b, j);
    LeaveTraced(p, o, b, SaveJournal(m), m);
    TracedConcat(p, o, b, BootItems(boot, j), saves);
    TracedConcat(p, o, b, BootItems(boot, j), Tidy(j));
    var first := BootItems(boot, j) + saves;
    ReconcileTraced(p, o, b, Written(d, first), m, h);
    TracedConcat(p, o, b, first, Settled(ReconcilePlan(Written(d, first), m, h, p)).items);
  }

  lemma BootTraced(p: Policy, o: Option<Offer>, b: Journal, boot: bool, j: Journal)
    ensures TracedItems(p, o, b, BootItems(boot, j))
  {
  }

  lemma OtherTraced(p: Policy, o: Option<Offer>, b: Journal, d: Disk, c: Command)
    requires Traced(p, o, b, d.journal) && (c.ResetTimeFloor? || c.ShowStatus? || !Loads(p, d)) && !c.Remote?
    ensures TracedItems(p, o, b, Dispatch(p, d, c).items)
  {
    hide Loads, Offered;
  }

  lemma DispatchTraced(p: Policy, b: Journal, d: Disk, c: Command)
    requires !c.Remote? && Traced(p, OfferTo(c), b, d.journal)
    ensures TracedItems(p, OfferTo(c), b, Dispatch(p, d, c).items)
  {
    var o := OfferTo(c);
    TracedNil(p, o, b);
    if c.ResetTimeFloor? || c.ShowStatus? || !Loads(p, d) {
      OtherTraced(p, o, b, d, c);
    } else {
      hide Loads, TracedItems, ReconcileScript, FetchScript, UpgradeScript, Traced;
      match c
      case Reconcile(boot, h) => ReconcileScriptTraced(p, o, b, d, boot, h);
      case Fetching(s, f) => DownloadTraced(p, b, d, s, f);
      case Upgrade(s, f, h) => UpgradeTraced(p, b, d, s, f, h);
    }
  }

  lemma SnapshotTraced(p: Policy, o: Option<Offer>, b: Journal, j: Journal)
    requires Traced(p, o, b, j)
    ensures Traced(p, o, b, Snapshot(j))
  {
    assert SameNews(j, Snapshot(j));
    TracedSame(p, o, b, j, Snapshot(j));
  }

  lemma {:induction false} TracedEnds(p: Policy, o: Option<Offer>, b: Journal, d: Disk, ws: seq<Write>)
    requires Traced(p, o, b, d.journal) && TracedWrites(p, o, b, ws)
    ensures Traced(p, o, b, ApplyAll(d, ws).journal)
    decreases |ws|
  {
    if ws != [] {
      assert TracedWrite(p, o, b, ws[0]);
      assert Traced(p, o, b, Apply(d, ws[0]).journal) by {
        if ws[0].SaveJournal? {
          SnapshotTraced(p, o, b, ws[0].state);
        } else {
          assert Apply(d, ws[0]).journal == d.journal;
        }
      }
      assert forall i | 0 <= i < |ws[1..]| :: ws[1..][i] == ws[i + 1];
      hide Traced, Apply;
      TracedEnds(p, o, b, Apply(d, ws[0]), ws[1..]);
    }
  }

  lemma TracedWritesConcat(p: Policy, o: Option<Offer>, j: Journal, a: seq<Write>, b: seq<Write>)
    requires TracedWrites(p, o, j, a) && TracedWrites(p, o, j, b)
    ensures TracedWrites(p, o, j, a + b)
  {
    hide TracedWrite;
  }

  lemma AcceptTraced(p: Policy, o: Option<Offer>, d: Disk, request: Request, now: nat)
    ensures TracedItems(p, o, d.journal, AcceptScript(p, d, request, now).items)
  {
    hide Loads, Offered;
  }

  lemma ReportTraced(p: Policy, o: Option<Offer>, b: Journal, d: Disk, failed: bool)
    requires Traced(p, o, b, d.journal)
    ensures TracedItems(p, o, b, ReportScript(p, d, failed).items)
  {
    hide Loads, Offered;
  }

  lemma AppliedTraced(p: Policy, b: Journal, d: Disk, c: Command, io: seq<Io>)
    requires c.Remote? && Traced(p, OfferTo(c), b, d.journal)
    ensures TracedWrites(p, OfferTo(c), b, Applied(p, d, c, io))
  {
    hide TracedItems, Traced, TracedWrites, Dispatch, Execute, ReportScript;
    var o := OfferTo(c);
    var upgrade := Upgrade(c.sweep, c.fetch, c.host);
    DispatchTraced(p, b, d, upgrade);
    var applying := Dispatch(p, d, upgrade);
    var applied := Execute(applying.items, io);
    ExecuteTraced(p, o, b, applying.items, io);
    TracedEnds(p, o, b, d, applied.writes);
    var d1 := ApplyAll(d, applied.writes);
    var report := ReportScript(p, d1, applying.failed || applied.failed);
    ReportTraced(p, o, b, d1, applying.failed || applied.failed);
    ExecuteTraced(p, o, b, report.items, applied.io);
    TracedWritesConcat(p, o, b, applied.writes, Execute(report.items, applied.io).writes);
  }

  lemma PerformedTraced(p: Policy, d: Disk, c: Command, io: seq<Io>)
    ensures TracedWrites(p, OfferTo(c), d.journal, Performed(p, d, c, io))
  {
    hide TracedItems, Traced, TracedWrites, Dispatch, Execute, AcceptScript, Applied;
    var o, j := OfferTo(c), d.journal;
    SelfTraced(p, o, j, j);
    if !c.Remote? {
      DispatchTraced(p, j, d, c);
      ExecuteTraced(p, o, j, Dispatch(p, d, c).items, io);
    } else {
      var accepting := AcceptScript(p, d, c.request, c.now);
      var accepted := Execute(accepting.items, io);
      AcceptTraced(p, o, d, c.request, c.now);
      ExecuteTraced(p, o, j, accepting.items, io);
      TracedEnds(p, o, j, d, accepted.writes);
      AppliedTraced(p, j, ApplyAll(d, accepted.writes), c, accepted.io);
      TracedWritesConcat(p, o, j, accepted.writes, Applied(p, ApplyAll(d, accepted.writes), c, accepted.io));
    }
  }

  /**
   * Whatever becomes of a command: a payload it stores is the one it was offered, a release of the agent
   * for the policy's own channel and target; and a journal it writes has seen and tries what the journal
   * it found had seen and tried, or that very release.
   */
  lemma OnlyOurReleases(p: Policy, d: Disk, c: Command, io: seq<Io>, i: nat)
    requires i < |Performed(p, d, c, io)|
    ensures var write := Performed(p, d, c, io)[i]; var j, o := d.journal, OfferTo(c);
            && (write.PutObject? ==> o.Some? && Ours(p, o.value) && write.digest == o.value.digest)
            && (write.SaveJournal? ==>
                  var m := write.state;
                  && (!(m.seenDigest == j.seenDigest && m.seenSequence == j.seenSequence) ==>
                        o.Some? && Ours(p, o.value) && m.seenDigest == o.value.digest && m.seenSequence == o.value.release.sequence)
                  && (m.tx.Some? && !(j.tx.Some? && m.tx.value.to == j.tx.value.to) ==>
                        o.Some? && Ours(p, o.value) && m.tx.value.to == Artifact(o.value.digest, o.value.release.sequence)))
  {
    PerformedTraced(p, d, c, io);
    hide Performed, Ours;
    assert TracedWrite(p, OfferTo(c), d.journal, Performed(p, d, c, io)[i]);
  }
}
