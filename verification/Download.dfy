/**
 * Fetching a release: root progress and the trust cache are made durable before the next request,
 * the release floors before the payload. `Fetch` is everything the network and clock contribute.
 */
module Download {
  import opened Options
  import opened AgentUpdate
  import opened LocalPolicy
  import opened Trust
  import opened Journals
  import opened Disks

  const GENERATION_QUOTA := 128
  const PAYLOAD_LIMIT := 32 * 1024 * 1024

  datatype Release = Release(
    product: string, component: string, channel: string, target: string,
    sequence: nat, minRollback: nat, version: string)

  /** The signed target entry of the loaded repository. */
  datatype Offer = Offer(release: Release, digest: Digest, length: nat, consistent: bool)

  datatype Repository = Unloadable | Loaded(offer: Option<Offer>)

  datatype Metadata = NextRoot | Timestamp | OtherRole

  /** What the client leaves in its working directory; it may store the root it trusts there. */
  datatype Filing = Filing(stores: bool, others: Inventory)

  /**
   * One metadata request: `offered` is what the network has for a root that is not recorded, `accepts`
   * whether the client takes the answer, `nonce` the generation `before` may make.
   */
  datatype Visit = Visit(request: Metadata, offered: Option<Root>, accepts: bool, filing: Filing, nonce: string)

  datatype Fetch = Fetch(
    now: nat,
    acceptedAt: nat,
    staging: string,
    opening: Filing,
    visits: seq<Visit>,
    finishing: string,
    published: string,
    accepted: string,
    repository: Repository,
    payload: bool)

  /** The order in which the directory listings name stale generations and objects. */
  datatype Sweep = Sweep(generations: seq<string>, objects: seq<Digest>)

  /** Errors of these writes leave the command without latching anything. */
  function Leave(write: Write, mem: Journal): Item {
    Item(write, mem, Returning)
  }

  // ---- releases -----------------------------------------------------------------------------------

  predicate ValidVersion(v: string) {
    && 1 <= |v| <= 64
    && forall i :: 0 <= i < |v| ==>
         ('a' <= v[i] <= 'z' || 'A' <= v[i] <= 'Z' || '0' <= v[i] <= '9' || v[i] in ".-_")
  }

  /** `Release::validate` */
  predicate ValidRelease(p: Policy, r: Release) {
    && r.product == "nodelite" && r.component == "agent"
    && r.channel == p.channel && r.target == p.target
    && ValidVersion(r.version)
    && ValidSequence(r.sequence) && ValidSequence(r.minRollback)
    && r.minRollback <= r.sequence
  }

  /** The joint rejection "release downgrade, equivocation or size rejected". */
  predicate Downgrades(j: Journal, o: Offer) {
    || o.length == 0 || o.length > PAYLOAD_LIMIT || !o.consistent
    || o.release.sequence < j.seenSequence
    || (o.release.sequence == j.seenSequence && o.digest != j.seenDigest)
  }

  function Max(a: nat, b: nat): nat {
    if a >= b then a else b
  }

  function Adopted(p: Policy, j: Journal, o: Offer, now: nat): Journal {
    j.(seenSequence := o.release.sequence, seenDigest := o.digest,
       hardFloor := Max(Max(j.hardFloor, o.release.minRollback), p.minimumSequence),
       timeHigh := Max(now, j.timeHigh))
  }

  /** `download::accept` */
  function AcceptRelease(p: Policy, j: Journal, o: Offer, now: nat): Result<Journal> {
    if !ValidRelease(p, o.release) || !ValidDigest(o.digest) then Err(PolicyRejected)
    else if Downgrades(j, o) then Err(PolicyRejected)
    else if o.release.minRollback > j.installed.sequence then Err(PolicyRejected)
    else Ok(Adopted(p, j, o, now))
  }

  // ---- trust progress -----------------------------------------------------------------------------

  /** `Progress::capture_root` */
  function CapturePlan(j: Journal, initial: Root, files: Inventory): Plan {
    if RootJson !in files then Pass(j)
    else if !files[RootJson].RootDoc? then Stop(j, Failure)
    else
      var root := files[RootJson].root;
      if !SelfSigned(root) then Stop(j, Recovery)
      else if root.version in j.roots then Pass(j)
      else if !Continues(j.roots, initial, root) then Stop(j, Recovery)
      else if |j.roots| >= ROOT_QUOTA then Stop(j, Recovery)
      else
        var recorded := j.(roots := j.roots[root.version := root]);
        Plan([Leave(PutRoot(root), j), Leave(SaveJournal(recorded), recorded)], recorded, Finished)
  }

  /** `publish_cache`; the listing used for the quota is the one `d` holds. */
  function PublishPlan(d: Disk, j: Journal, files: Inventory, nonce: string): Plan {
    if RootJson !in files then Stop(j, Recovery)
    else if j.cache.Some? && files == j.inventory then Plan([Leave(SaveJournal(j), j)], j, Finished)
    else if |d.generations| >= GENERATION_QUOTA then Stop(j, PolicyRejected)
    else if nonce in d.generations then Stop(j, Failure)
    else
      var published := j.(cache := Some(nonce), inventory := files);
      Plan([Leave(MakeGeneration(nonce), j), Leave(FillGeneration(nonce, files), j),
            Leave(SaveJournal(published), published)], published, Finished)
  }

  /** The second half of `before` and `finish`, once publishing has begun. */
  function Refreshed(d: Disk, j: Journal, files: Inventory, nonce: string, publishing: bool): Plan {
    if publishing then PublishPlan(d, j, files, nonce) else Pass(j)
  }

  // ---- one repository load ------------------------------------------------------------------------

  /** The TUF client between two requests: the root it trusts and its working directory. */
  datatype Client = Client(trusted: Root, files: Inventory)

  function Filed(files: Inventory, filing: Filing, trusted: Root): Inventory {
    var others := filing.others - {RootJson};
    if filing.stores then others[RootJson := RootDoc(trusted)]
    else if RootJson in files then others[RootJson := files[RootJson]]
    else others
  }

  /** The end of `before`: a recorded root is replayed from the record, whatever the network has. */
  function Answer(roots: map<nat, Root>, c: Client, v: Visit): Option<Root> {
    var next := c.trusted.version + 1;
    if !v.request.NextRoot? then None
    else if next in roots then Some(roots[next])
    else v.offered
  }

  /** The client trusts the answer, if any, instead of an older root. */
  function Moved(c: Client, v: Visit, answer: Option<Root>): Client {
    var trusted := if v.accepts && answer.Some? && answer.value.version > c.trusted.version
                   then answer.value else c.trusted;
    Client(trusted, Filed(c.files, v.filing, trusted))
  }

  /** What is left of a load; `broken` once one of its requests has failed. */
  datatype Load = Load(
    initial: Root, client: Client, visits: seq<Visit>, publishing: bool, broken: bool, finishing: string)

  /** After a failed request: the client takes a root as missing; anything else ends its load. */
  function Aborted(l: Load): Load
    requires l.visits != []
  {
    var v := l.visits[0];
    l.(client := Moved(l.client, v, None), broken := true,
       visits := if v.request.NextRoot? then l.visits[1..] else [])
  }

  function Answered(l: Load, roots: map<nat, Root>): Load
    requires l.visits != []
  {
    l.(client := Moved(l.client, l.visits[0], Answer(roots, l.client, l.visits[0])), visits := l.visits[1..])
  }

  function Begun(l: Load): Load
    requires l.visits != []
  {
    l.(publishing := l.publishing || l.visits[0].request.Timestamp?)
  }

  datatype Loading = Loading(plan: Plan, files: Inventory)

  /** `finish`, and then the load's own error. */
  function FinishPlan(d: Disk, j: Journal, l: Load): Plan {
    var captured := CapturePlan(j, l.initial, l.client.files);
    var finish := Then(captured, Refreshed(Written(d, captured.items), captured.mem, l.client.files, l.finishing, l.publishing));
    if l.broken && finish.end.Finished? then finish.(end := End.Failed(Failure)) else finish
  }

  /** Every remaining request, then `finish`; the files are the ones a successful load ends with. */
  function LoadPlan(d: Disk, j: Journal, l: Load): Loading
    decreases |l.visits|, 1, 0
  {
    if l.visits == [] then Loading(FinishPlan(d, j, l), l.client.files)
    else
      var captured := CapturePlan(j, l.initial, l.client.files);
      if captured.end.Failed? then LoadPlan(d, j, Aborted(l))
      else
        var begun := Begun(l);
        var d1 := Written(d, captured.items);
        var refreshed := Refreshed(d1, captured.mem, l.client.files, l.visits[0].nonce, begun.publishing);
        var rest := LoadPlan(Written(d1, refreshed.items), refreshed.mem, NextLoad(begun, refreshed));
        rest.(plan := Before(Guarded(d, captured.items, Aborted(l)) + Guarded(d1, refreshed.items, Aborted(begun)), rest.plan))
  }

  function NextLoad(begun: Load, refreshed: Plan): (l: Load)
    requires begun.visits != []
    ensures |l.visits| < |begun.visits|
  {
    if refreshed.end.Failed? then Aborted(begun) else Answered(begun, refreshed.mem.roots)
  }

  /** Writes of one request: when one fails, the load goes on as `l`, with the journal then in memory. */
  function Guarded(d: Disk, items: seq<Item>, l: Load): (guarded: seq<Item>)
    ensures |guarded| == |items|
    ensures forall i | 0 <= i < |items| :: guarded[i].write == items[i].write
    decreases |l.visits|, 2, |items|
  {
    if items == [] then []
    else
      var next := Apply(d, items[0].write);
      [items[0].(fault := Rescued(LoadPlan(d, items[0].mem, l).plan, LoadPlan(next, items[0].mem, l).plan))]
      + Guarded(next, items[1..], l)
  }

  function InitialRoot(p: Policy, j: Journal): Root {
    if j.cache.Some? && RootJson in j.inventory && j.inventory[RootJson].RootDoc?
    then j.inventory[RootJson].root else p.bootstrap
  }

  function Staged(j: Journal): Inventory {
    if j.cache.Some? then j.inventory else map[]
  }

  function StagePlan(d: Disk, j: Journal, staging: string): Plan {
    if |d.generations| >= GENERATION_QUOTA then Stop(j, PolicyRejected)
    else if staging in d.generations then Stop(j, Failure)
    else
      Plan([Leave(MakeGeneration(staging), j),
            Leave(FillGeneration(staging, Staged(j)), j)], j, Finished)
  }

  function Opening(p: Policy, j: Journal, f: Fetch): Load {
    var initial := InitialRoot(p, j);
    Load(initial, Client(initial, Filed(Staged(j), f.opening, initial)), f.visits, false, false, f.finishing)
  }

  /** From the loaded repository to the durable payload. */
  function ReleasePlan(p: Policy, d: Disk, j: Journal, f: Fetch, files: Inventory): Plan {
    if f.repository.Unloadable? then Stop(j, Failure)
    else
      var published := PublishPlan(d, j, files, f.published);
      Then(published, AdoptPlan(p, Written(d, published.items), published.mem, f, files, f.repository.offer))
  }

  function AdoptPlan(p: Policy, d: Disk, j: Journal, f: Fetch, files: Inventory, offer: Option<Offer>): Plan {
    var accepted := if offer.Some? then AcceptRelease(p, j, offer.value, f.acceptedAt) else Err(PolicyRejected);
    if accepted.Err? then Stop(j, accepted.error)
    else
      var committed := PublishPlan(d, accepted.value, files, f.accepted);
      Then(committed,
           if !f.payload then Stop(committed.mem, PolicyRejected)
           else Plan([Leave(PutObject(offer.value.digest), committed.mem)], committed.mem, Finished))
  }

  /** Everything after the staging directory. */
  function DownloadPlan(p: Policy, d: Disk, j: Journal, f: Fetch): Plan {
    var loading := LoadPlan(d, j, Opening(p, j, f));
    Then(loading.plan,
         ReleasePlan(p, Written(d, loading.plan.items), loading.plan.mem, f, loading.files))
  }

  /** `fetch`; on success the candidate is the release just adopted. */
  function FetchPlan(p: Policy, d: Disk, j: Journal, f: Fetch): Plan {
    if SaturatingAdd(f.now, TIME_SKEW_SECS) < j.timeHigh then Stop(j, PolicyRejected)
    else
      var staged := StagePlan(d, j, f.staging);
      if staged.end.Failed? then staged
      else
        var d1 := Written(d, staged.items);
        Before(staged.items, DownloadPlan(p, d1, j, f))
  }

  function Candidate(j: Journal): Artifact {
    Artifact(j.seenDigest, j.seenSequence)
  }

  // ---- garbage collection ---------------------------------------------------------------------------

  function Pins(j: Journal): set<Digest> {
    {j.installed.digest, j.seenDigest}
    + (if j.tx.Some? then {j.tx.value.from.digest, j.tx.value.to.digest} else {})
  }

  function GenerationItems(j: Journal, listing: seq<string>): seq<Item> {
    if listing == [] then []
    else if Some(listing[0]) == j.cache then GenerationItems(j, listing[1..])
    else [Leave(DropGeneration(listing[0]), j)] + GenerationItems(j, listing[1..])
  }

  function ObjectItems(j: Journal, listing: seq<Digest>): seq<Item> {
    if listing == [] then []
    else if listing[0] in Pins(j) then ObjectItems(j, listing[1..])
    else [Leave(DropObject(listing[0]), j)] + ObjectItems(j, listing[1..])
  }

  /** `maintenance::collect` */
  function CollectPlan(j: Journal, s: Sweep): Plan {
    if !Terminal(j.phase) then Stop(j, Recovery)
    else Plan(GenerationItems(j, s.generations) + ObjectItems(j, s.objects), j, Finished)
  }
}
