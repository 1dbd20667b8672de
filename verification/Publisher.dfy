/**
 * The static mirror: every publication is a new immutable generation, reached through one pointer.
 * Its monotonicity is what makes the updater's acceptance of later generations safe. A payload stands
 * for its own collision-free digest; `size` gives the length behind a digest. Documents are compared by
 * content, files by their bytes: a file is a document in one of its encodings.
 */
module Publishers {
  import opened Options
  import opened AgentUpdate
  import opened LocalPolicy
  import opened Trust
  import opened Journals
  import opened Download
  import Disks

  const RETENTION_QUOTA := 64

  // ---- metadata -----------------------------------------------------------------------------------------

  datatype Role = TargetsRole | SnapshotRole | TimestampRole

  datatype Delegation = Delegation(keys: set<nat>, threshold: nat)

  datatype Authority = Authority(root: Root, online: map<Role, Delegation>, consistent: bool)

  datatype Entry = Entry(name: string, release: Release, length: nat, digest: Digest, onlySha256: bool)

  datatype Targets = Targets(version: nat, expires: nat, entries: seq<Entry>, signers: set<nat>)

  /** The bytes of a document in the encoding `form`. */
  datatype Raw<T> = Raw(doc: T, form: nat)

  /** Length and hashes are optional; where present they pin the child's bytes. */
  datatype Link<T> = Link(version: nat, pin: Option<Raw<T>>)

  datatype Snapshot = Snapshot(version: nat, expires: nat, meta: map<string, Link<Targets>>, signers: set<nat>)

  datatype Timestamp = Timestamp(version: nat, expires: nat, link: Link<Snapshot>, signers: set<nat>)

  datatype Bundle = Bundle(targets: Raw<Targets>, snapshot: Raw<Snapshot>, timestamp: Raw<Timestamp>)

  predicate Disjoint(a: Authority) {
    && (forall r | r in a.online.Keys :: a.online[r].keys * a.root.keys == {})
    && (forall r, q | r in a.online.Keys && q in a.online.Keys && r != q :: a.online[r].keys * a.online[q].keys == {})
  }

  /** `root_safe` */
  predicate RootSafe(a: Authority) {
    && a.consistent
    && a.online.Keys == {TargetsRole, SnapshotRole, TimestampRole}
    && 2 <= a.root.threshold <= |a.root.keys|
    && (forall r | r in a.online.Keys ::
          (if r.TargetsRole? then 2 else 1) <= a.online[r].threshold <= |a.online[r].keys|)
    && Disjoint(a)
  }

  predicate Delegates(a: Authority, role: Role, signers: set<nat>) {
    role in a.online && |a.online[role].keys * signers| >= a.online[role].threshold
  }

  /** `release_scope` succeeds. */
  predicate ScopeOk(r: Release) {
    && r.product == "nodelite" && r.component == "agent"
    && r.channel in {"stable", "testing"}
    && r.target in {"x86_64-unknown-linux-musl", "aarch64-unknown-linux-musl"}
    && ValidVersion(r.version)
    && ValidSequence(r.sequence) && ValidSequence(r.minRollback)
    && r.minRollback <= r.sequence
  }

  function Scope(r: Release): string {
    "nodelite-agent-" + r.channel + "-" + r.target
  }

  predicate Unexpired(b: Bundle, now: nat) {
    b.targets.doc.expires > now && b.snapshot.doc.expires > now && b.timestamp.doc.expires > now
  }

  /** `release`, apart from expiry and the artifact. */
  predicate ReleaseOk(a: Authority, b: Bundle) {
    var targets, snapshot, timestamp := b.targets.doc, b.snapshot.doc, b.timestamp.doc;
    && Delegates(a, TargetsRole, targets.signers)
    && Delegates(a, SnapshotRole, snapshot.signers)
    && Delegates(a, TimestampRole, timestamp.signers)
    && |targets.entries| == 1 && snapshot.meta.Keys == {"targets.json"}
    && (var link := snapshot.meta["targets.json"];
        link.version == targets.version && (link.pin.Some? ==> link.pin.value == b.targets))
    && timestamp.link.version == snapshot.version && (timestamp.link.pin.Some? ==> timestamp.link.pin.value == b.snapshot)
    && var e := targets.entries[0];
       ScopeOk(e.release) && Scope(e.release) == e.name && 0 < e.length <= PAYLOAD_LIMIT && e.onlySha256
  }

  /** One step of the loop in `roots`. */
  predicate LinkOk(chain: seq<Raw<Authority>>, i: nat)
    requires i < |chain|
  {
    var root := chain[i].doc.root;
    && root.version == i + 1
    && RootSafe(chain[i].doc)
    && Authorises(root, root)
    && (i > 0 ==> Authorises(chain[i - 1].doc.root, root))
  }

  /** `roots` succeeds: a gap-free history from version 1, each root authorised by its predecessor. */
  predicate ChainOk(chain: seq<Raw<Authority>>) {
    1 <= |chain| <= ROOT_QUOTA && forall i: nat | i < |chain| :: LinkOk(chain, i)
  }

  // ---- the mirror on disk ---------------------------------------------------------------------------------

  datatype MetaName = RootFile(version: nat) | TargetsFile(version: nat) | SnapshotFile(version: nat) | TimestampFile

  datatype MetaFile = RootBytes(root: Raw<Authority>) | TargetsBytes(targets: Raw<Targets>)
                    | SnapshotBytes(snapshot: Raw<Snapshot>) | TimestampBytes(timestamp: Raw<Timestamp>)

  datatype TargetName = TargetName(digest: Digest, scope: string)

  datatype Generation = Generation(metadata: map<MetaName, MetaFile>, targets: map<TargetName, Digest>)

  datatype Repository = Repository(generations: map<string, Generation>, current: Option<string>)

  /** What a client, or the next publication, finds behind the pointer. */
  datatype View = View(chain: seq<Raw<Authority>>, bundle: Bundle)

  function Sold(v: View): Entry
    requires |v.bundle.targets.doc.entries| == 1
  {
    v.bundle.targets.doc.entries[0]
  }

  predicate Holds(g: Generation, name: MetaName, file: MetaFile) {
    name in g.metadata && g.metadata[name] == file
  }

  /** `g` serves exactly `v`: `current` would return it. */
  ghost predicate Serves(size: Digest -> nat, g: Generation, v: View) {
    && ChainOk(v.chain)
    && (forall n :: n in g.metadata && n.RootFile? <==> n in RootNames(|v.chain|))
    && (forall i: nat | i < |v.chain| :: Holds(g, RootFile(i + 1), RootBytes(v.chain[i])))
    && ReleaseOk(v.chain[|v.chain| - 1].doc, v.bundle)
    && Holds(g, TimestampFile, TimestampBytes(v.bundle.timestamp))
    && Holds(g, SnapshotFile(v.bundle.snapshot.doc.version), SnapshotBytes(v.bundle.snapshot))
    && Holds(g, TargetsFile(v.bundle.targets.doc.version), TargetsBytes(v.bundle.targets))
    && var e := Sold(v);
       && TargetName(e.digest, e.name) in g.targets && g.targets[TargetName(e.digest, e.name)] == e.digest
       && e.length == size(e.digest)
  }

  function RootNames(n: nat): set<MetaName> {
    set v: nat | 1 <= v <= n :: RootFile(v)
  }

  /** Nothing stored is newer than what is served, and every file is what its name says. */
  predicate Settled(g: Generation, v: View) {
    && (forall n | n in g.metadata :: n.TargetsFile? ==> n.version <= v.bundle.targets.doc.version)
    && (forall n | n in g.metadata :: n.SnapshotFile? ==> n.version <= v.bundle.snapshot.doc.version)
    && (forall n | n in g.targets :: g.targets[n] == n.digest)
  }

  ghost predicate Mirrors(size: Digest -> nat, r: Repository, v: View) {
    && r.current.Some? && r.current.value in r.generations
    && Serves(size, r.generations[r.current.value], v) && Settled(r.generations[r.current.value], v)
  }

  lemma NamesDiffer(n: nat, m: nat)
    ensures n < m ==> RootFile(m) in RootNames(m) && RootFile(m) !in RootNames(n)
  {
  }

  /** A timestamp names one snapshot and that one targets file: what is served is unique. */
  lemma ServedOnce(size: Digest -> nat, g: Generation, v: View, u: View)
    requires Serves(size, g, v) && Serves(size, g, u)
    ensures v == u
  {
    assert v.bundle.timestamp == u.bundle.timestamp;
    assert v.bundle.snapshot == u.bundle.snapshot;
    assert v.bundle.targets == u.bundle.targets;
    NamesDiffer(|v.chain|, |u.chain|);
    NamesDiffer(|u.chain|, |v.chain|);
    forall i: nat | i < |v.chain| ensures v.chain[i] == u.chain[i] {
      assert Holds(g, RootFile(i + 1), RootBytes(v.chain[i])) && Holds(g, RootFile(i + 1), RootBytes(u.chain[i]));
    }
  }

  // ---- what a publication demands ----------------------------------------------------------------------------

  /** `publish`, before the lock. */
  predicate Offered(size: Digest -> nat, v: View, rootExpires: nat, payload: Digest, now: nat) {
    && ChainOk(v.chain) && rootExpires > now
    && ReleaseOk(v.chain[|v.chain| - 1].doc, v.bundle) && Unexpired(v.bundle, now)
    && Sold(v).digest == payload && Sold(v).length == size(payload)
  }

  /** At least `threshold` of `keys` signed. */
  predicate Enough(keys: set<nat>, threshold: nat, signers: set<nat>) {
    |keys * signers| >= threshold
  }

  /** Three online roles; root and targets need two signatures; no key serves two roles. */
  ghost predicate KeysApart(a: Authority) {
    && a.consistent
    && TargetsRole in a.online && SnapshotRole in a.online && TimestampRole in a.online
    && 2 <= a.root.threshold <= |a.root.keys|
    && 2 <= a.online[TargetsRole].threshold <= |a.online[TargetsRole].keys|
    && 1 <= a.online[SnapshotRole].threshold <= |a.online[SnapshotRole].keys|
    && 1 <= a.online[TimestampRole].threshold <= |a.online[TimestampRole].keys|
    && forall k: nat ::
         && (k in a.root.keys ==>
               k !in a.online[TargetsRole].keys && k !in a.online[SnapshotRole].keys && k !in a.online[TimestampRole].keys)
         && (k in a.online[TargetsRole].keys ==> k !in a.online[SnapshotRole].keys && k !in a.online[TimestampRole].keys)
         && (k in a.online[SnapshotRole].keys ==> k !in a.online[TimestampRole].keys)
  }

  /** From version 1 without a gap, each root signed by its own keys and by those of the root before. */
  ghost predicate Handed(chain: seq<Raw<Authority>>) {
    && 1 <= |chain| <= 128
    && forall i | 0 <= i < |chain| ::
         && KeysApart(chain[i].doc)
         && chain[i].doc.root.version == i + 1
         && Enough(chain[i].doc.root.keys, chain[i].doc.root.threshold, chain[i].doc.root.signers)
         && (i > 0 ==> Enough(chain[i - 1].doc.root.keys, chain[i - 1].doc.root.threshold, chain[i].doc.root.signers))
  }

  /** Every role is signed under the newest root, and each document names its child, in its bytes where it pins them. */
  ghost predicate SignedBy(a: Authority, b: Bundle) {
    && (forall role | role in {TargetsRole, SnapshotRole, TimestampRole} :: role in a.online)
    && Enough(a.online[TargetsRole].keys, a.online[TargetsRole].threshold, b.targets.doc.signers)
    && Enough(a.online[SnapshotRole].keys, a.online[SnapshotRole].threshold, b.snapshot.doc.signers)
    && Enough(a.online[TimestampRole].keys, a.online[TimestampRole].threshold, b.timestamp.doc.signers)
    && "targets.json" in b.snapshot.doc.meta && (forall name | name in b.snapshot.doc.meta :: name == "targets.json")
    && b.snapshot.doc.meta["targets.json"].version == b.targets.doc.version
    && b.snapshot.doc.meta["targets.json"].pin in {None, Some(b.targets)}
    && b.timestamp.doc.link.version == b.snapshot.doc.version
    && b.timestamp.doc.link.pin in {None, Some(b.snapshot)}
  }

  /** A release of the agent under its own name, with one plain digest and a plausible size. */
  predicate Named(e: Entry) {
    var r := e.release;
    && e.name == "nodelite-agent-" + r.channel + "-" + r.target
    && r.product == "nodelite" && r.component == "agent"
    && (r.channel == "stable" || r.channel == "testing")
    && (r.target == "x86_64-unknown-linux-musl" || r.target == "aarch64-unknown-linux-musl")
    && 0 < r.minRollback <= r.sequence < 0x20_0000_0000_0000
    && 0 < |r.version| <= 64
    && (forall i | 0 <= i < |r.version| ::
          var c := r.version[i];
          'a' <= c <= 'z' || 'A' <= c <= 'Z' || '0' <= c <= '9' || c == '.' || c == '-' || c == '_')
    && 1 <= e.length <= 32 * 1024 * 1024 && e.onlySha256
  }

  /** What the publisher's documentation asks of a submission, signature by signature and field by field. */
  ghost predicate Deserves(size: Digest -> nat, v: View, rootExpires: nat, payload: Digest, now: nat) {
    && Handed(v.chain) && SignedBy(v.chain[|v.chain| - 1].doc, v.bundle)
    && now < rootExpires && now < v.bundle.targets.doc.expires
    && now < v.bundle.snapshot.doc.expires && now < v.bundle.timestamp.doc.expires
    && |v.bundle.targets.doc.entries| == 1
    && var e := v.bundle.targets.doc.entries[0];
       Named(e) && e.digest == payload && e.length == size(payload)
  }

  lemma KeysApartIff(a: Authority)
    ensures KeysApart(a) <==> RootSafe(a)
  {
    if KeysApart(a) {
      forall role | role in a.online.Keys ensures role in {TargetsRole, SnapshotRole, TimestampRole} {
        match role
        case TargetsRole =>
        case SnapshotRole =>
        case TimestampRole =>
      }
      assert a.online.Keys == {TargetsRole, SnapshotRole, TimestampRole};
    }
    if RootSafe(a) {
      assert {TargetsRole, SnapshotRole, TimestampRole} <= a.online.Keys;
      SafeApart(a);
    }
  }

  lemma SafeApart(a: Authority)
    requires RootSafe(a)
    ensures KeysApart(a)
  {
    forall k: nat, role | role in a.online.Keys ensures !(k in a.root.keys && k in a.online[role].keys) {
      NoneShared(a.online[role].keys, a.root.keys, k);
    }
    forall k: nat, role, other | role in a.online.Keys && other in a.online.Keys && role != other
      ensures !(k in a.online[role].keys && k in a.online[other].keys)
    {
      NoneShared(a.online[role].keys, a.online[other].keys, k);
    }
  }

  lemma NoneShared(a: set<nat>, b: set<nat>, k: nat)
    requires a * b == {}
    ensures !(k in a && k in b)
  {
    assert k in a && k in b <==> k in a * b;
  }

  lemma HandedIff(chain: seq<Raw<Authority>>)
    ensures Handed(chain) <==> ChainOk(chain)
  {
    forall i: nat | i < |chain| ensures KeysApart(chain[i].doc) <==> RootSafe(chain[i].doc) {
      KeysApartIff(chain[i].doc);
    }
    forall i: nat | i < |chain| && RootSafe(chain[i].doc) ensures chain[i].doc.root.threshold > 0 {
    }
    hide KeysApart, RootSafe;
    if ChainOk(chain) {
      forall i | 0 <= i < |chain|
        ensures KeysApart(chain[i].doc) && chain[i].doc.root.version == i + 1
        ensures Enough(chain[i].doc.root.keys, chain[i].doc.root.threshold, chain[i].doc.root.signers)
        ensures i > 0 ==> Enough(chain[i - 1].doc.root.keys, chain[i - 1].doc.root.threshold, chain[i].doc.root.signers)
      {
        assert LinkOk(chain, i);
      }
    }
  }

  lemma NamedIff(e: Entry)
    ensures Named(e) <==> ScopeOk(e.release) && Scope(e.release) == e.name && 0 < e.length <= PAYLOAD_LIMIT && e.onlySha256
  {
  }

  lemma SignedByIff(a: Authority, b: Bundle)
    requires |b.targets.doc.entries| == 1
    ensures SignedBy(a, b) && Named(b.targets.doc.entries[0]) <==> ReleaseOk(a, b)
  {
    NamedIff(b.targets.doc.entries[0]);
    hide Named, ScopeOk, Scope;
    assert "targets.json" in b.snapshot.doc.meta && (forall name | name in b.snapshot.doc.meta :: name == "targets.json")
      <==> b.snapshot.doc.meta.Keys == {"targets.json"};
  }

  /** `publish` checks before its lock exactly what a submission must meet. */
  lemma DeservesIff(size: Digest -> nat, v: View, rootExpires: nat, payload: Digest, now: nat)
    ensures Deserves(size, v, rootExpires, payload, now) <==> Offered(size, v, rootExpires, payload, now)
  {
    HandedIff(v.chain);
    hide Handed, SignedBy, Named;
    if v.chain != [] && |v.bundle.targets.doc.entries| == 1 {
      SignedByIff(v.chain[|v.chain| - 1].doc, v.bundle);
      hide ReleaseOk;
    }
    hide ChainOk;
  }

  /** `v` may follow `u`: no document, release or floor goes back, equal versions mean equal documents, one is newer. */
  ghost predicate Ahead(v: View, u: View)
    requires |v.bundle.targets.doc.entries| == 1 && |u.bundle.targets.doc.entries| == 1
  {
    var a, b := v.bundle, u.bundle;
    var e, was := a.targets.doc.entries[0], b.targets.doc.entries[0];
    && |u.chain| <= |v.chain| && (forall i | 0 <= i < |u.chain| :: v.chain[i].doc == u.chain[i].doc)
    && a.targets.doc.version >= b.targets.doc.version && a.snapshot.doc.version >= b.snapshot.doc.version
    && a.timestamp.doc.version >= b.timestamp.doc.version
    && (a.targets.doc.version == b.targets.doc.version ==> a.targets.doc == b.targets.doc)
    && (a.snapshot.doc.version == b.snapshot.doc.version ==> a.snapshot.doc == b.snapshot.doc)
    && (a.timestamp.doc.version == b.timestamp.doc.version ==> a.timestamp.doc == b.timestamp.doc)
    && Newer(v, u)
    && e.release.channel == was.release.channel && e.release.target == was.release.target
    && e.release.minRollback >= was.release.minRollback
    && (e.release.sequence > was.release.sequence || (e.release == was.release && e.digest == was.digest))
  }

  lemma AheadIff(v: View, u: View)
    requires |v.bundle.targets.doc.entries| == 1 && |u.bundle.targets.doc.entries| == 1
    ensures Ahead(v, u) <==> Advances(v, u)
  {
    if Advances(v, u) {
      forall i | 0 <= i < |u.chain| ensures v.chain[i].doc == u.chain[i].doc {
        assert Docs(v.chain)[i] == Docs(u.chain)[i];
      }
    }
    if |u.chain| <= |v.chain| && forall i | 0 <= i < |u.chain| :: v.chain[i].doc == u.chain[i].doc {
      assert Docs(v.chain)[..|u.chain|] == Docs(u.chain);
    }
  }

  predicate SameOrNewer(newVersion: nat, oldVersion: nat, same: bool) {
    newVersion > oldVersion || (newVersion == oldVersion && same)
  }

  function Docs(chain: seq<Raw<Authority>>): (docs: seq<Authority>)
    ensures |docs| == |chain| && forall i :: 0 <= i < |chain| ==> docs[i] == chain[i].doc
  {
    seq(|chain|, i requires 0 <= i < |chain| => chain[i].doc)
  }

  /** The comparison with what is served now: by content, not by bytes. */
  predicate Advances(v: View, u: View)
    requires |v.bundle.targets.doc.entries| == 1 && |u.bundle.targets.doc.entries| == 1
  {
    var a, b := v.bundle, u.bundle;
    var release, was := Sold(v).release, Sold(u).release;
    && Docs(u.chain) <= Docs(v.chain)
    && release.channel == was.channel && release.target == was.target
    && release.sequence >= was.sequence && release.minRollback >= was.minRollback
    && SameOrNewer(a.targets.doc.version, b.targets.doc.version, a.targets.doc == b.targets.doc)
    && SameOrNewer(a.snapshot.doc.version, b.snapshot.doc.version, a.snapshot.doc == b.snapshot.doc)
    && SameOrNewer(a.timestamp.doc.version, b.timestamp.doc.version, a.timestamp.doc == b.timestamp.doc)
    && !(a.targets.doc.version == b.targets.doc.version && a.snapshot.doc.version == b.snapshot.doc.version
         && a.timestamp.doc.version == b.timestamp.doc.version)
    && (release.sequence == was.sequence ==> release == was && Sold(v).digest == Sold(u).digest)
  }

  /** Documents that both publications contain are in the same encoding. The timestamp may differ. */
  predicate SameBytes(v: View, u: View) {
    && (forall i | 0 <= i < |u.chain| && i < |v.chain| :: v.chain[i] == u.chain[i])
    && (v.bundle.targets.doc.version == u.bundle.targets.doc.version ==> v.bundle.targets == u.bundle.targets)
    && (v.bundle.snapshot.doc.version == u.bundle.snapshot.doc.version ==> v.bundle.snapshot == u.bundle.snapshot)
  }

  /** The generation a publication builds from the previous one. */
  function Built(previous: Generation, v: View): Generation
    requires |v.bundle.targets.doc.entries| == 1
  {
    var b := v.bundle;
    var roots := map n | n in RootNames(|v.chain|) :: RootBytes(v.chain[n.version - 1]);
    Generation(
      previous.metadata + roots
      + map[TargetsFile(b.targets.doc.version) := TargetsBytes(b.targets),
            SnapshotFile(b.snapshot.doc.version) := SnapshotBytes(b.snapshot),
            TimestampFile := TimestampBytes(b.timestamp)],
      previous.targets[TargetName(Sold(v).digest, Sold(v).name) := Sold(v).digest])
  }

  const EMPTY := Generation(map[], map[])

  // ---- publication -----------------------------------------------------------------------------------------------

  predicate Fits(g: Generation, name: MetaName, file: MetaFile) {
    name in g.metadata ==> g.metadata[name] == file
  }

  predicate RootsFit(g: Generation, chain: seq<Raw<Authority>>, n: nat)
    requires n <= |chain|
  {
    forall i: nat | i < n :: Fits(g, RootFile(i + 1), RootBytes(chain[i]))
  }

  /** No file that is to be written exists with other bytes. */
  predicate Clear(g: Generation, v: View)
    requires |v.bundle.targets.doc.entries| == 1
  {
    && RootsFit(g, v.chain, |v.chain|)
    && Fits(g, TargetsFile(v.bundle.targets.doc.version), TargetsBytes(v.bundle.targets))
    && Fits(g, SnapshotFile(v.bundle.snapshot.doc.version), SnapshotBytes(v.bundle.snapshot))
    && (var name := TargetName(Sold(v).digest, Sold(v).name); name in g.targets ==> g.targets[name] == Sold(v).digest)
  }

  /**
   * A publication that passed every comparison is in the way of a copied file exactly when it encodes
   * a document it shares with the last publication differently.
   */
  lemma NoCollisionIff(size: Digest -> nat, g: Generation, u: View, v: View)
    requires Serves(size, g, u) && Settled(g, u) && |v.bundle.targets.doc.entries| == 1 && Advances(v, u) && ChainOk(v.chain)
    ensures Clear(g, v) <==> SameBytes(v, u)
  {
    hide ChainOk, ReleaseOk, SameOrNewer;
    forall i: nat | i < |v.chain|
      ensures Fits(g, RootFile(i + 1), RootBytes(v.chain[i])) <==> (i < |u.chain| ==> v.chain[i] == u.chain[i])
    {
      if i < |u.chain| {
        assert Holds(g, RootFile(i + 1), RootBytes(u.chain[i]));
      } else {
        assert RootFile(i + 1) !in RootNames(|u.chain|);
      }
    }
    ServedEntry(size, g, u);
    RolesFit(g, u, v) by {
      assert Holds(g, SnapshotFile(u.bundle.snapshot.doc.version), SnapshotBytes(u.bundle.snapshot));
      assert Holds(g, TargetsFile(u.bundle.targets.doc.version), TargetsBytes(u.bundle.targets));
      AdvancedVersions(v, u);
    }
    hide Serves, Settled, Advances, Holds;
  }

  lemma AdvancedVersions(v: View, u: View)
    requires |v.bundle.targets.doc.entries| == 1 && |u.bundle.targets.doc.entries| == 1 && Advances(v, u)
    ensures u.bundle.targets.doc.version <= v.bundle.targets.doc.version
    ensures u.bundle.snapshot.doc.version <= v.bundle.snapshot.doc.version
  {
  }

  lemma RolesFit(g: Generation, u: View, v: View)
    requires Settled(g, u) && |v.bundle.targets.doc.entries| == 1
    requires Holds(g, SnapshotFile(u.bundle.snapshot.doc.version), SnapshotBytes(u.bundle.snapshot))
    requires Holds(g, TargetsFile(u.bundle.targets.doc.version), TargetsBytes(u.bundle.targets))
    requires u.bundle.targets.doc.version <= v.bundle.targets.doc.version
    requires u.bundle.snapshot.doc.version <= v.bundle.snapshot.doc.version
    ensures Fits(g, TargetsFile(v.bundle.targets.doc.version), TargetsBytes(v.bundle.targets))
            <==> (v.bundle.targets.doc.version == u.bundle.targets.doc.version ==> v.bundle.targets == u.bundle.targets)
    ensures Fits(g, SnapshotFile(v.bundle.snapshot.doc.version), SnapshotBytes(v.bundle.snapshot))
            <==> (v.bundle.snapshot.doc.version == u.bundle.snapshot.doc.version ==> v.bundle.snapshot == u.bundle.snapshot)
    ensures var name := TargetName(Sold(v).digest, Sold(v).name); name in g.targets ==> g.targets[name] == Sold(v).digest
  {
  }

  /**
   * The failing input: a publication that would go through, with `1.root.json` formatted in another
   * way. It passes every comparison and then collides.
   */
  lemma ReformattedRootCollides(v: View, u: View)
    requires |v.bundle.targets.doc.entries| == 1 && |u.bundle.targets.doc.entries| == 1
    requires Advances(v, u) && SameBytes(v, u) && ChainOk(v.chain) && ChainOk(u.chain)
    ensures var other := v.(chain := v.chain[0 := v.chain[0].(form := v.chain[0].form + 1)]);
            ChainOk(other.chain) && Advances(other, u) && !SameBytes(other, u)
  {
    var other := v.(chain := v.chain[0 := v.chain[0].(form := v.chain[0].form + 1)]);
    assert Docs(other.chain) == Docs(v.chain);
    assert other.chain[0] != v.chain[0] && v.chain[0] == u.chain[0];
    hide RootSafe, Authorises;
    forall i: nat | i < |other.chain| ensures LinkOk(other.chain, i) {
      assert LinkOk(v.chain, i);
    }
  }

  lemma BuiltMetadata(g: Generation, v: View)
    requires v.chain != [] && |v.bundle.targets.doc.entries| == 1
    ensures var b, built := v.bundle, Built(g, v);
            && Holds(built, TimestampFile, TimestampBytes(b.timestamp))
            && Holds(built, SnapshotFile(b.snapshot.doc.version), SnapshotBytes(b.snapshot))
            && Holds(built, TargetsFile(b.targets.doc.version), TargetsBytes(b.targets))
            && (forall n: MetaName | n.RootFile? :: n in built.metadata <==> n in g.metadata || n in RootNames(|v.chain|))
  {
  }

  lemma BuiltRoot(g: Generation, v: View, i: nat)
    requires i < |v.chain| && |v.bundle.targets.doc.entries| == 1
    ensures Holds(Built(g, v), RootFile(i + 1), RootBytes(v.chain[i]))
  {
    assert RootFile(i + 1) in RootNames(|v.chain|);
  }

  /** Publishing and reading back is the identity. */
  lemma BuiltServes(size: Digest -> nat, g: Generation, v: View)
    requires ChainOk(v.chain) && ReleaseOk(v.chain[|v.chain| - 1].doc, v.bundle) && Sold(v).length == size(Sold(v).digest)
    requires forall n | n in g.metadata && n.RootFile? :: n in RootNames(|v.chain|)
    ensures Serves(size, Built(g, v), v)
  {
    BuiltMetadata(g, v);
    assert Built(g, v).targets == g.targets[TargetName(Sold(v).digest, Sold(v).name) := Sold(v).digest];
    assert |v.bundle.targets.doc.entries| == 1;
    hide ChainOk, ReleaseOk, Built, Holds, RootNames;
    forall i: nat | i < |v.chain| ensures Holds(Built(g, v), RootFile(i + 1), RootBytes(v.chain[i])) {
      BuiltRoot(g, v, i);
    }
  }

  lemma BuiltSettled(g: Generation, u: View, v: View)
    requires Settled(g, u) && |v.bundle.targets.doc.entries| == 1
    requires u.bundle.targets.doc.version <= v.bundle.targets.doc.version && u.bundle.snapshot.doc.version <= v.bundle.snapshot.doc.version
    ensures Settled(Built(g, v), v)
  {
  }

  lemma EmptySettled(v: View)
    requires |v.bundle.targets.doc.entries| == 1
    ensures Settled(Built(EMPTY, v), v)
  {
  }

  predicate Publishable(size: Digest -> nat, v: View) {
    ChainOk(v.chain) && ReleaseOk(v.chain[|v.chain| - 1].doc, v.bundle) && Sold(v).length == size(Sold(v).digest)
  }

  /** The refusals of `publish_locked`: a regression, a lost pointer, a full mirror. */
  predicate Admits(generations: map<string, Generation>, u: Option<View>, v: View)
    requires |v.bundle.targets.doc.entries| == 1 && (u.Some? ==> |u.value.bundle.targets.doc.entries| == 1)
  {
    && (if u.Some? then Advances(v, u.value) else generations == map[])
    && |generations| < RETENTION_QUOTA
  }

  /** What follows is ahead of what is served, what is first finds nothing, and fewer than 64 generations are kept. */
  ghost predicate MayFollow(generations: map<string, Generation>, u: Option<View>, v: View)
    requires |v.bundle.targets.doc.entries| == 1 && (u.Some? ==> |u.value.bundle.targets.doc.entries| == 1)
  {
    && |generations| < 64
    && (u.Some? ==> Ahead(v, u.value))
    && (u.None? ==> forall id :: id !in generations)
  }

  lemma MayFollowIff(generations: map<string, Generation>, u: Option<View>, v: View)
    requires |v.bundle.targets.doc.entries| == 1 && (u.Some? ==> |u.value.bundle.targets.doc.entries| == 1)
    ensures MayFollow(generations, u, v) <==> Admits(generations, u, v)
  {
    if u.Some? {
      AheadIff(v, u.value);
    } else {
      assert generations == map[] <==> forall id :: id !in generations;
    }
    hide Ahead, Advances;
  }

  lemma OneEntry(size: Digest -> nat, v: View)
    requires Publishable(size, v)
    ensures |v.bundle.targets.doc.entries| == 1 && ChainOk(v.chain)
  {
    hide ChainOk;
  }

  lemma ServedEntry(size: Digest -> nat, g: Generation, u: View)
    requires Serves(size, g, u)
    ensures |u.bundle.targets.doc.entries| == 1
  {
    hide ChainOk;
  }

  lemma AdmittedAdvances(generations: map<string, Generation>, u: Option<View>, v: View)
    requires |v.bundle.targets.doc.entries| == 1 && (u.Some? ==> |u.value.bundle.targets.doc.entries| == 1)
    requires Admits(generations, u, v)
    ensures u.Some? ==> Advances(v, u.value)
  {
    hide Advances;
  }

  /** After the first publication, and after any later one, the mirror serves what was published. */
  lemma PublishedMirrors(size: Digest -> nat, g: Generation, u: Option<View>, v: View)
    requires Publishable(size, v)
    requires u.None? ==> g == EMPTY
    requires u.Some? ==> Serves(size, g, u.value) && Settled(g, u.value) && Advances(v, u.value)
    ensures Serves(size, Built(g, v), v) && Settled(Built(g, v), v)
  {
    if u.None? {
      BuiltServes(size, g, v);
      EmptySettled(v);
    } else {
      forall n | n in g.metadata && n.RootFile? ensures n in RootNames(|v.chain|) {
        assert n in RootNames(|u.value.chain|);
      }
      BuiltServes(size, g, v);
      BuiltSettled(g, u.value, v);
    }
  }

  // ---- histories -------------------------------------------------------------------------------------------------

  /** Successive successful publications. */
  ghost predicate History(views: seq<View>) {
    && (forall i | 0 <= i < |views| :: ChainOk(views[i].chain) && ReleaseOk(views[i].chain[|views[i].chain| - 1].doc, views[i].bundle))
    && (forall i | 0 < i < |views| :: Advances(views[i], views[i - 1]) && SameBytes(views[i], views[i - 1]))
  }

  /** Everything a later publication keeps of an earlier one: of what they share, the very bytes. */
  predicate Later(v: View, u: View)
    requires |v.bundle.targets.doc.entries| == 1 && |u.bundle.targets.doc.entries| == 1
  {
    && u.chain <= v.chain
    && u.bundle.targets.doc.version <= v.bundle.targets.doc.version
    && u.bundle.snapshot.doc.version <= v.bundle.snapshot.doc.version
    && u.bundle.timestamp.doc.version <= v.bundle.timestamp.doc.version
    && (u.bundle.targets.doc.version == v.bundle.targets.doc.version ==> u.bundle.targets == v.bundle.targets)
    && (u.bundle.snapshot.doc.version == v.bundle.snapshot.doc.version ==> u.bundle.snapshot == v.bundle.snapshot)
    && (u.bundle.timestamp.doc.version == v.bundle.timestamp.doc.version ==> u.bundle.timestamp.doc == v.bundle.timestamp.doc)
    && Sold(v).release.channel == Sold(u).release.channel && Sold(v).release.target == Sold(u).release.target
    && Sold(u).release.sequence <= Sold(v).release.sequence
    && Sold(u).release.minRollback <= Sold(v).release.minRollback
    && (Sold(u).release.sequence == Sold(v).release.sequence ==>
          Sold(u).release == Sold(v).release && Sold(u).digest == Sold(v).digest)
  }

  /** At least one document is newer. */
  predicate Newer(v: View, u: View) {
    || u.bundle.targets.doc.version < v.bundle.targets.doc.version
    || u.bundle.snapshot.doc.version < v.bundle.snapshot.doc.version
    || u.bundle.timestamp.doc.version < v.bundle.timestamp.doc.version
  }

  /**
   * Over any run of publications the root chain only grows, nothing is downgraded, nothing equivocates, and
   * no publication repeats an earlier one.
   */
  lemma {:induction false} PublicationsMonotone(views: seq<View>, i: nat, k: nat)
    requires History(views) && i <= k < |views|
    ensures Later(views[k], views[i]) && (i < k ==> Newer(views[k], views[i]))
    decreases k - i
  {
    hide ChainOk, ReleaseOk, Later, Advances, SameBytes, Newer;
    assert |views[i].bundle.targets.doc.entries| == 1 by {
      EntryOf(views, i);
    }
    if i == k {
      LaterSame(views[i]);
    } else {
      PublicationsMonotone(views, i, k - 1);
      EntryOf(views, k);
      EntryOf(views, k - 1);
      assert Advances(views[k], views[k - 1]) && SameBytes(views[k], views[k - 1]);
      LaterThrough(views[k], views[k - 1], views[i]);
    }
  }

  lemma EntryOf(views: seq<View>, i: nat)
    requires History(views) && i < |views|
    ensures |views[i].bundle.targets.doc.entries| == 1
  {
    hide ChainOk, Advances;
  }

  lemma LaterSame(v: View)
    requires |v.bundle.targets.doc.entries| == 1
    ensures Later(v, v)
  {
  }

  lemma LaterThrough(w: View, v: View, u: View)
    requires |w.bundle.targets.doc.entries| == 1 && |v.bundle.targets.doc.entries| == 1 && |u.bundle.targets.doc.entries| == 1
    requires Later(v, u) && Advances(w, v) && SameBytes(w, v)
    ensures Later(w, u) && Newer(w, u)
  {
    assert v.chain <= w.chain by {
      assert |Docs(v.chain)| <= |Docs(w.chain)|;
    }
    hide Docs;
  }

  // ---- publisher and client ----------------------------------------------------------------------------------------

  /** What the client makes of a served view. */
  function OfferOf(v: View): Offer
    requires v.chain != [] && |v.bundle.targets.doc.entries| == 1
  {
    Offer(Sold(v).release, Sold(v).digest, Sold(v).length, v.chain[|v.chain| - 1].doc.consistent)
  }

  /**
   * A client that accepted one publication never meets the downgrade or equivocation rejection at
   * any later one; it refuses a later one exactly when that revokes what it has installed.
   */
  lemma LaterAlwaysAcceptable(p: Policy, views: seq<View>, i: nat, k: nat, j: Journal, first: nat, now: nat, since: Journal)
    requires History(views) && i <= k < |views|
    requires AcceptRelease(p, j, OfferOf(views[i]), first).Ok?
    requires var accepted := AcceptRelease(p, j, OfferOf(views[i]), first).value;
             since.seenSequence == accepted.seenSequence && since.seenDigest == accepted.seenDigest
    requires ValidDigest(Sold(views[k]).digest)
    ensures !Downgrades(since, OfferOf(views[k]))
    ensures AcceptRelease(p, since, OfferOf(views[k]), now).Ok?
            <==> Sold(views[k]).release.minRollback <= since.installed.sequence
  {
    PublicationsMonotone(views, i, k);
    assert RootSafe(views[k].chain[|views[k].chain| - 1].doc) by {
      assert LinkOk(views[k].chain, |views[k].chain| - 1);
    }
  }

  /** The floor a client holds is the policy's or the last accepted publication's, whichever is higher. */
  lemma FloorFollowsPublisher(p: Policy, views: seq<View>, i: nat, k: nat, j: Journal, now: nat)
    requires History(views) && i <= k < |views|
    requires j.hardFloor == Max(p.minimumSequence, Sold(views[i]).release.minRollback)
    requires AcceptRelease(p, j, OfferOf(views[k]), now).Ok?
    ensures AcceptRelease(p, j, OfferOf(views[k]), now).value.hardFloor
            == Max(p.minimumSequence, Sold(views[k]).release.minRollback)
  {
    PublicationsMonotone(views, i, k);
  }

  /** The first acceptance establishes that floor. */
  lemma FloorStarts(p: Policy, j: Journal, o: Offer, now: nat)
    requires j.hardFloor == p.minimumSequence && AcceptRelease(p, j, o, now).Ok?
    ensures AcceptRelease(p, j, o, now).value.hardFloor == Max(p.minimumSequence, o.release.minRollback)
  {
  }

  /** One fetch of a client: the publication it met, and whether the release was installed before the next. */
  datatype Meeting = Meeting(index: nat, now: nat, installs: bool)

  /** A client meets publications in the order in which they were made; it may miss some or meet one again. */
  ghost predicate InOrder(views: seq<View>, ms: seq<Meeting>) {
    && History(views)
    && (forall i | 0 <= i < |ms| :: ms[i].index < |views|)
    && (forall i, k | 0 <= i < k < |ms| :: ms[i].index <= ms[k].index)
  }

  /** The client after all its fetches, or the first that was refused. */
  ghost function ClientAfter(p: Policy, views: seq<View>, j: Journal, ms: seq<Meeting>): Result<Journal>
    requires InOrder(views, ms)
    decreases |ms|
  {
    if ms == [] then Ok(j)
    else
      var m := ms[|ms| - 1];
      var before := ClientAfter(p, views, j, ms[..|ms| - 1]);
      if before.Err? then before
      else
        var accepted := AcceptRelease(p, before.value, OfferOf(views[m.index]), m.now);
        if accepted.Err? then accepted
        else Ok(if m.installs then accepted.value.(installed := Candidate(accepted.value)) else accepted.value)
  }

  /** All a client knows of the publisher is the last publication it accepted. */
  lemma {:induction false} ClientFollows(p: Policy, views: seq<View>, j: Journal, ms: seq<Meeting>)
    requires InOrder(views, ms) && ms != [] && j.hardFloor == p.minimumSequence && ClientAfter(p, views, j, ms).Ok?
    ensures var c := ClientAfter(p, views, j, ms).value; var v := views[ms[|ms| - 1].index];
            && c.hardFloor == Max(p.minimumSequence, Sold(v).release.minRollback)
            && c.seenSequence == Sold(v).release.sequence && c.seenDigest == Sold(v).digest
    decreases |ms|
  {
    var m, earlier := ms[|ms| - 1], ms[..|ms| - 1];
    var before := ClientAfter(p, views, j, earlier).value;
    hide History;
    if earlier == [] {
      FloorStarts(p, j, OfferOf(views[m.index]), m.now);
    } else {
      ClientFollows(p, views, j, earlier);
      FloorFollowsPublisher(p, views, earlier[|earlier| - 1].index, m.index, before, m.now);
    }
  }

  /**
   * Over any fetches in order, from enrollment on: after the first, a client refuses a publication exactly
   * when it revokes what the client has installed by then.
   */
  lemma RefusedOnlyWhenRevoked(p: Policy, views: seq<View>, j: Journal, ms: seq<Meeting>, next: Meeting)
    requires InOrder(views, ms + [next]) && next.index < |views| && ms != [] && j.hardFloor == p.minimumSequence
    requires InOrder(views, ms) && ClientAfter(p, views, j, ms).Ok? && ValidDigest(Sold(views[next.index]).digest)
    ensures ClientAfter(p, views, j, ms + [next]).Ok?
            <==> Sold(views[next.index]).release.minRollback <= ClientAfter(p, views, j, ms).value.installed.sequence
  {
    var all := ms + [next];
    assert all[..|all| - 1] == ms && all[|all| - 1] == next;
    var m := ms[|ms| - 1];
    assert all[|ms| - 1] == m && m.index <= next.index;
    var before := ClientAfter(p, views, j, ms[..|ms| - 1]).value;
    ClientFollows(p, views, j, ms);
    LaterAlwaysAcceptable(p, views, m.index, next.index, before, m.now, next.now, ClientAfter(p, views, j, ms).value);
    hide History, AcceptRelease;
  }

  /** The client has recorded only roots of this chain, and its cached root is one of them. */
  ghost predicate Follows(p: Policy, j: Journal, chain: seq<Raw<Authority>>) {
    && 1 <= p.bootstrap.version <= |chain| && chain[p.bootstrap.version - 1].doc.root == p.bootstrap
    && (forall v | v in j.roots :: 1 <= v <= |chain| && j.roots[v] == chain[v - 1].doc.root)
    && (j.cache.Some? && RootJson in j.inventory && j.inventory[RootJson].RootDoc? ==>
          Recorded(j.roots, j.inventory[RootJson].root))
  }

  /** Above the recorded roots, the newest of them is the predecessor, wherever the load started. */
  lemma NextFollowsNewest(p: Policy, j: Journal, chain: seq<Raw<Authority>>, lo: nat)
    requires Follows(p, j, chain) && Spans(p.bootstrap, j.roots, lo) && j.roots != map[]
    ensures var top := lo + |j.roots|;
            && top - 1 in j.roots && top !in j.roots
            && Predecessor(j.roots, InitialRoot(p, j), top) == j.roots[top - 1]
  {
    hide SelfSigned, Authorised;
    var top := lo + |j.roots|;
    assert Latest(j.roots, top) == Some(top - 1);
    assert InitialRoot(p, j).version <= top - 1;
  }

  /**
   * Walking the published chain upwards, every next root is captured: no gap, no rejection, no quota.
   * The load may start at the bootstrap root or at any cached one.
   */
  lemma ChainAlwaysCaptured(p: Policy, j: Journal, chain: seq<Raw<Authority>>, lo: nat)
    requires ChainOk(chain) && Follows(p, j, chain) && Spans(p.bootstrap, j.roots, lo)
    requires j.roots != map[] && lo + |j.roots| <= |chain|
    ensures var next := chain[lo + |j.roots| - 1].doc.root; var initial := InitialRoot(p, j);
            var plan := CapturePlan(j, initial, map[RootJson := RootDoc(next)]);
            && Continues(j.roots, initial, next) && |j.roots| < ROOT_QUOTA && next.version !in j.roots
            && plan.end.Finished? && plan.mem == j.(roots := j.roots[next.version := next])
            && Follows(p, plan.mem, chain)
  {
    hide ChainOk, LinkOk, Spans, Predecessor, InitialRoot, Authorises, SelfSigned, CapturePlan, Follows, SameSigned;
    var top := lo + |j.roots|;
    var next := chain[top - 1].doc.root;
    NextFollowsNewest(p, j, chain, lo);
    LinkFacts(chain, top);
    NewestRecorded(p, j, chain, top - 1);
    CaptureQuota(p, j, lo);
    assert Continues(j.roots, InitialRoot(p, j), next);
    hide Continues;
    CapturesNext(j, InitialRoot(p, j), next);
    FollowsNext(p, j, chain, top);
  }

  /** The roots of `chain` above the recorded ones, captured one after another. */
  function Caught(p: Policy, j: Journal, chain: seq<Raw<Authority>>, from: nat, n: nat): Disks.Plan
    requires 1 <= from && from + n <= |chain| + 1
    decreases n
  {
    if n == 0 then Disks.Pass(j)
    else
      var next := CapturePlan(j, InitialRoot(p, j), map[RootJson := RootDoc(chain[from - 1].doc.root)]);
      if next.end.Failed? then next else Caught(p, next.mem, chain, from + 1, n - 1)
  }

  /** A client that follows the chain to its end records all of it: no gap, no rejection, no quota on the way. */
  lemma {:induction false} WholeChainCaptured(p: Policy, j: Journal, chain: seq<Raw<Authority>>, lo: nat, n: nat)
    requires ChainOk(chain) && Follows(p, j, chain) && Spans(p.bootstrap, j.roots, lo) && j.roots != map[]
    requires lo + |j.roots| + n <= |chain| + 1
    ensures var plan := Caught(p, j, chain, lo + |j.roots|, n);
            && plan.end.Finished? && Follows(p, plan.mem, chain)
            && Spans(p.bootstrap, plan.mem.roots, lo) && |plan.mem.roots| == |j.roots| + n
    decreases n
  {
    hide ChainOk, Spans, Follows, CapturePlan, InitialRoot;
    if n > 0 {
      var top := lo + |j.roots|;
      var next := chain[top - 1].doc.root;
      ChainAlwaysCaptured(p, j, chain, lo);
      NewestAuthorises(p, j, chain, lo);
      ChainGrows(p.bootstrap, j.roots, lo, next);
      var grown := CapturePlan(j, InitialRoot(p, j), map[RootJson := RootDoc(next)]).mem;
      assert grown.roots.Keys == j.roots.Keys + {top};
      assert |grown.roots| == |grown.roots.Keys| && |j.roots| == |j.roots.Keys|;
      WholeChainCaptured(p, grown, chain, lo, n - 1);
    }
  }

  lemma NewestAuthorises(p: Policy, j: Journal, chain: seq<Raw<Authority>>, lo: nat)
    requires ChainOk(chain) && Follows(p, j, chain) && Spans(p.bootstrap, j.roots, lo) && j.roots != map[]
    requires lo + |j.roots| <= |chain|
    ensures var top := lo + |j.roots|; var next := chain[top - 1].doc.root;
            && next.version == top && SelfSigned(next) && top - 1 in j.roots && Authorises(j.roots[top - 1], next)
  {
    hide Authorised, SelfSigned, Authorises, LinkOk, ChainOk;
    var top := lo + |j.roots|;
    assert top - 1 in j.roots;
    LinkFacts(chain, top);
  }

  lemma CapturesNext(j: Journal, initial: Root, next: Root)
    requires SelfSigned(next) && next.version !in j.roots && Continues(j.roots, initial, next) && |j.roots| < ROOT_QUOTA
    ensures var plan := CapturePlan(j, initial, map[RootJson := RootDoc(next)]);
            plan.end.Finished? && plan.mem == j.(roots := j.roots[next.version := next])
  {
    hide SelfSigned, Continues;
  }

  lemma NewestRecorded(p: Policy, j: Journal, chain: seq<Raw<Authority>>, v: nat)
    requires ChainOk(chain) && Follows(p, j, chain) && v in j.roots
    ensures 1 <= v <= |chain| && j.roots[v] == chain[v - 1].doc.root && j.roots[v].version == v && 1 <= p.bootstrap.version
  {
    LinkFacts(chain, v);
  }

  lemma FollowsNext(p: Policy, j: Journal, chain: seq<Raw<Authority>>, top: nat)
    requires Follows(p, j, chain) && 1 <= top <= |chain| && top !in j.roots
    ensures Follows(p, j.(roots := j.roots[top := chain[top - 1].doc.root]), chain)
  {
  }

  /** The chain is no longer than the quota, and starts at 1. */
  lemma CaptureQuota(p: Policy, j: Journal, lo: nat)
    requires Spans(p.bootstrap, j.roots, lo) && lo + |j.roots| <= ROOT_QUOTA && 1 <= p.bootstrap.version
    ensures |j.roots| < ROOT_QUOTA
  {
    hide SelfSigned, Authorised;
  }

  /** The first capture takes the bootstrap root itself or its successor. */
  lemma FirstAlwaysCaptured(p: Policy, j: Journal, chain: seq<Raw<Authority>>, next: Root)
    requires ChainOk(chain) && Follows(p, j, chain) && j.roots == map[]
    requires next.version in {p.bootstrap.version, p.bootstrap.version + 1} && 1 <= next.version <= |chain|
    requires next == chain[next.version - 1].doc.root
    ensures var plan := CapturePlan(j, InitialRoot(p, j), map[RootJson := RootDoc(next)]);
            plan.end.Finished? && plan.mem.roots == map[next.version := next]
  {
    LinkFacts(chain, next.version);
    LinkFacts(chain, p.bootstrap.version);
    assert InitialRoot(p, j) == p.bootstrap;
    hide ChainOk, Follows, Authorises, InitialRoot;
    PredecessorOfNone(p.bootstrap, next.version);
    assert Continues(j.roots, p.bootstrap, next);
    hide Continues;
  }

  lemma LinkFacts(chain: seq<Raw<Authority>>, v: nat)
    requires ChainOk(chain) && 1 <= v <= |chain|
    ensures chain[v - 1].doc.root.version == v && SelfSigned(chain[v - 1].doc.root) && |chain| <= ROOT_QUOTA
    ensures v > 1 ==> Authorises(chain[v - 2].doc.root, chain[v - 1].doc.root)
  {
    assert LinkOk(chain, v - 1);
  }

  // ---- as it is written -------------------------------------------------------------------------------------------

  datatype Outcome = Published | Refused | Interrupted

  function Versions(n: nat): (r: set<nat>)
    ensures forall v :: v in r <==> 1 <= v <= n
  {
    if n == 0 then {} else Versions(n - 1) + {n}
  }

  /** The directory holds exactly the files of `chain`. */
  predicate Lists(files: map<nat, Raw<Authority>>, chain: seq<Raw<Authority>>) {
    && files.Keys == Versions(|chain|)
    && forall v | v in files :: 1 <= v <= |chain| && files[v] == chain[v - 1]
  }

  /** `roots`: it returns the history the files form, and fails exactly when they form none. */
  method ReadRoots(files: map<nat, Raw<Authority>>) returns (r: Result<seq<Raw<Authority>>>)
    ensures r.Ok? ==> ChainOk(r.value) && Lists(files, r.value)
    ensures r.Err? ==> forall chain: seq<Raw<Authority>> :: !(ChainOk(chain) && Lists(files, chain))
  {
    var count := |files|;
    assert |files| == |files.Keys|;
    hide LinkOk;
    if !(1 <= count <= ROOT_QUOTA) || files.Keys != Versions(count) {
      WrongCount(files);
      return Err(Failure);
    }
    var chain: seq<Raw<Authority>> := [];
    while |chain| < count
      invariant |chain| <= count && SoFar(files, chain)
    {
      hide Versions;
      var longer := chain + [files[|chain| + 1]];
      if !LinkOk(longer, |chain|) {
        BrokenLink(files, chain, longer, count);
        return Err(Failure);
      }
      ReadOn(files, chain, longer);
      hide SoFar;
      chain := longer;
    }
    assert ChainOk(chain) && Lists(files, chain);
    r := Ok(chain);
  }

  /** The beginning of a history, as far as it has been read. */
  predicate SoFar(files: map<nat, Raw<Authority>>, chain: seq<Raw<Authority>>) {
    && (forall i: nat | i < |chain| :: LinkOk(chain, i))
    && (forall v | v in files && 1 <= v <= |chain| :: files[v] == chain[v - 1])
  }

  lemma ReadOn(files: map<nat, Raw<Authority>>, chain: seq<Raw<Authority>>, longer: seq<Raw<Authority>>)
    requires SoFar(files, chain) && |chain| + 1 in files && longer == chain + [files[|chain| + 1]]
    requires LinkOk(longer, |chain|)
    ensures SoFar(files, longer)
  {
    hide LinkOk;
    forall i: nat | i < |chain| ensures LinkOk(longer, i) {
      LinkPrefix(chain, longer, i);
    }
  }

  lemma WrongCount(files: map<nat, Raw<Authority>>)
    requires !(1 <= |files| <= ROOT_QUOTA) || files.Keys != Versions(|files|)
    ensures forall chain: seq<Raw<Authority>> :: !(ChainOk(chain) && Lists(files, chain))
  {
    hide LinkOk;
    forall chain: seq<Raw<Authority>> ensures !(ChainOk(chain) && Lists(files, chain)) {
      VersionCount(|chain|);
      assert |files| == |files.Keys|;
    }
  }

  lemma LinkPrefix(chain: seq<Raw<Authority>>, longer: seq<Raw<Authority>>, i: nat)
    requires i < |chain| && chain <= longer
    ensures LinkOk(chain, i) == LinkOk(longer, i)
  {
    assert chain[i] == longer[i] && (i > 0 ==> chain[i - 1] == longer[i - 1]);
  }

  lemma {:induction false} VersionCount(n: nat)
    ensures |Versions(n)| == n
    decreases n
  {
    if n == 0 {
      assert Versions(n) == {};
    } else {
      VersionCount(n - 1);
      assert Versions(n) == Versions(n - 1) + {n};
    }
  }

  /** No acceptable history begins with a broken link. */
  lemma BrokenLink(files: map<nat, Raw<Authority>>, chain: seq<Raw<Authority>>, longer: seq<Raw<Authority>>, count: nat)
    requires SoFar(files, chain) && |chain| < count && files.Keys == Versions(count)
    requires longer == chain + [files[|chain| + 1]] && !LinkOk(longer, |chain|)
    ensures forall whole: seq<Raw<Authority>> :: !(ChainOk(whole) && Lists(files, whole))
  {
    hide LinkOk;
    forall whole: seq<Raw<Authority>> ensures !(ChainOk(whole) && Lists(files, whole)) {
      VersionCount(|whole|);
      VersionCount(count);
      if |whole| == count && Lists(files, whole) {
        forall i: nat | i < |longer| ensures longer[i] == whole[i] {
          assert i + 1 in files;
        }
        LinkPrefix(longer, whole, |chain|);
      }
    }
  }

  /** The first `n` root files of a chain. */
  function RootFiles(chain: seq<Raw<Authority>>, n: nat): map<MetaName, MetaFile>
    requires n <= |chain|
  {
    map f | f in RootNames(n) :: RootBytes(chain[f.version - 1])
  }

  function RoleFiles(b: Bundle): map<MetaName, MetaFile> {
    map[TargetsFile(b.targets.doc.version) := TargetsBytes(b.targets),
        SnapshotFile(b.snapshot.doc.version) := SnapshotBytes(b.snapshot),
        TimestampFile := TimestampBytes(b.timestamp)]
  }

  lemma RootFilesGrow(base: map<MetaName, MetaFile>, chain: seq<Raw<Authority>>, i: nat)
    requires i < |chain|
    ensures base + RootFiles(chain, i + 1) == (base + RootFiles(chain, i))[RootFile(i + 1) := RootBytes(chain[i])]
    ensures RootFile(i + 1) in base + RootFiles(chain, i) <==> RootFile(i + 1) in base
    ensures RootFile(i + 1) in base ==> (base + RootFiles(chain, i))[RootFile(i + 1)] == base[RootFile(i + 1)]
  {
    assert RootNames(i + 1) == RootNames(i) + {RootFile(i + 1)};
  }

  function RootsPut(was: Generation, chain: seq<Raw<Authority>>, n: nat): Generation
    requires n <= |chain|
  {
    was.(metadata := was.metadata + RootFiles(chain, n))
  }

  lemma NoRootsPut(was: Generation, chain: seq<Raw<Authority>>)
    ensures RootsPut(was, chain, 0) == was && RootsFit(was, chain, 0)
  {
    assert was.metadata == was.metadata + RootFiles(chain, 0);
  }

  /** One more root: whether it fits is decided by what was there before all of them. */
  lemma RootPut(was: Generation, chain: seq<Raw<Authority>>, i: nat)
    requires i < |chain| && RootsFit(was, chain, i)
    ensures var now := RootsPut(was, chain, i); var name, file := RootFile(i + 1), RootBytes(chain[i]);
            && RootsPut(was, chain, i + 1) == now.(metadata := now.metadata[name := file])
            && (Fits(now, name, file) ==> RootsFit(was, chain, i + 1))
            && (!Fits(now, name, file) ==> !RootsFit(was, chain, |chain|))
  {
    RootFilesGrow(was.metadata, chain, i);
    hide RootFiles;
  }

  /** The three role files, one after another. */
  lemma RolesApart(base: map<MetaName, MetaFile>, b: Bundle)
    ensures var one := base[TargetsFile(b.targets.doc.version) := TargetsBytes(b.targets)];
            var two := one[SnapshotFile(b.snapshot.doc.version) := SnapshotBytes(b.snapshot)];
            && (two - {TimestampFile})[TimestampFile := TimestampBytes(b.timestamp)] == base + RoleFiles(b)
            && (SnapshotFile(b.snapshot.doc.version) in one <==> SnapshotFile(b.snapshot.doc.version) in base)
            && (SnapshotFile(b.snapshot.doc.version) in base ==>
                  one[SnapshotFile(b.snapshot.doc.version)] == base[SnapshotFile(b.snapshot.doc.version)])
  {
  }

  /** Root files are no role files. */
  lemma RootsApart(previous: Generation, v: View)
    ensures forall n: MetaName, file: MetaFile | !n.RootFile? ::
              Fits(previous.(metadata := previous.metadata + RootFiles(v.chain, |v.chain|)), n, file) <==> Fits(previous, n, file)
  {
  }

  lemma BuiltParts(previous: Generation, v: View)
    requires |v.bundle.targets.doc.entries| == 1
    ensures Built(previous, v)
            == Generation(previous.metadata + RootFiles(v.chain, |v.chain|) + RoleFiles(v.bundle),
                          previous.targets[TargetName(Sold(v).digest, Sold(v).name) := Sold(v).digest])
  {
  }

  /** Whether anything is in the way, also for the first publication. */
  predicate Unobstructed(v: View, u: Option<View>) {
    u.Some? ==> SameBytes(v, u.value)
  }

  lemma ClearIff(size: Digest -> nat, g: Generation, v: View, u: Option<View>)
    requires ChainOk(v.chain) && |v.bundle.targets.doc.entries| == 1
    requires u.None? ==> g == EMPTY
    requires u.Some? ==> Serves(size, g, u.value) && Settled(g, u.value) && Advances(v, u.value)
    ensures Clear(g, v) <==> Unobstructed(v, u)
  {
    if u.Some? {
      NoCollisionIff(size, g, u.value, v);
    }
  }

  /** The root files of a served generation are its chain's. */
  lemma RootListing(size: Digest -> nat, g: Generation, u: View, files: map<nat, Raw<Authority>>)
    requires Serves(size, g, u)
    requires files == map n | n in g.metadata && n.RootFile? && g.metadata[n].RootBytes? :: n.version := g.metadata[n].root
    ensures ChainOk(u.chain) && Lists(files, u.chain)
  {
    forall v | v in files ensures v in Versions(|u.chain|) && files[v] == u.chain[v - 1] {
      assert RootFile(v) in RootNames(|u.chain|);
      var i: nat := v - 1;
      assert Holds(g, RootFile(i + 1), RootBytes(u.chain[i]));
    }
    forall v | v in Versions(|u.chain|) ensures v in files {
      var i: nat := v - 1;
      assert Holds(g, RootFile(i + 1), RootBytes(u.chain[i]));
      assert RootFile(v) in g.metadata;
    }
  }

  lemma ListsOnce(files: map<nat, Raw<Authority>>, chain: seq<Raw<Authority>>)
    requires Lists(files, chain)
    ensures forall other: seq<Raw<Authority>> :: Lists(files, other) ==> other == chain
  {
    forall other: seq<Raw<Authority>> | Lists(files, other) ensures other == chain {
      VersionCount(|chain|);
      VersionCount(|other|);
      forall i: nat | i < |chain| ensures other[i] == chain[i] {
        assert i + 1 in files;
      }
    }
  }

  class Mirror {
    var generations: map<string, Generation>
    var current: Option<string>
    /** How many files can still be created before something fails or the power goes. */
    var budget: nat

    ghost predicate Serving(size: Digest -> nat, v: View)
      reads this
    {
      Mirrors(size, Repository(generations, current), v)
    }

    constructor (budget: nat)
      ensures generations == map[] && current == None && this.budget == budget
    {
      generations := map[];
      current := None;
      this.budget := budget;
    }

    /** The previous generation's files are created anew, one at a time. */
    method Copy<K, V>(source: map<K, V>) returns (ok: bool, copy: map<K, V>)
      modifies `budget
      ensures copy.Keys <= source.Keys && forall n | n in copy :: copy[n] == source[n]
      ensures ok ==> copy == source
    {
      var todo := source.Keys;
      copy := map[];
      while todo != {}
        invariant todo <= source.Keys && copy.Keys == source.Keys - todo
        invariant forall n | n in copy :: copy[n] == source[n]
        decreases |todo|
      {
        if budget == 0 {
          return false, copy;
        }
        budget := budget - 1;
        var name :| name in todo;
        copy := copy[name := source[name]];
        todo := todo - {name};
      }
      ok := true;
    }

    /** `put_immutable` for metadata: an existing file must already hold the same document. */
    method PutMetadata(identity: string, name: MetaName, file: MetaFile) returns (r: Outcome)
      requires identity in generations
      modifies this
      ensures current == old(current) && identity in generations
      ensures generations == old(generations)[identity := generations[identity]]
      ensures r.Published? ==>
                (var was := old(generations)[identity];
                 Fits(was, name, file) && generations[identity] == was.(metadata := was.metadata[name := file]))
      ensures r.Refused? <==> !Fits(old(generations)[identity], name, file)
    {
      var g := generations[identity];
      if name in g.metadata {
        if g.metadata[name] != file {
          return Refused;
        }
        assert g.metadata[name := file] == g.metadata;
        return Published;
      }
      if budget == 0 {
        return Interrupted;
      }
      budget := budget - 1;
      generations := generations[identity := g.(metadata := g.metadata[name := file])];
      r := Published;
    }

    /** Every root of the chain, from version 1 upwards. */
    method PutRoots(identity: string, chain: seq<Raw<Authority>>) returns (r: Outcome)
      requires identity in generations
      modifies this
      ensures current == old(current) && identity in generations
      ensures generations == old(generations)[identity := generations[identity]]
      ensures r.Refused? ==> !RootsFit(old(generations)[identity], chain, |chain|)
      ensures r.Published? ==>
                && RootsFit(old(generations)[identity], chain, |chain|)
                && generations[identity] == RootsPut(old(generations)[identity], chain, |chain|)
    {
      hide RootsFit, RootsPut, Fits;
      var i := 0;
      ghost var was := generations[identity];
      r := Published;
      NoRootsPut(was, chain);
      while i < |chain|
        invariant 0 <= i <= |chain| && r.Published?
        invariant current == old(current) && identity in generations
        invariant generations == old(generations)[identity := generations[identity]]
        invariant generations[identity] == RootsPut(was, chain, i) && RootsFit(was, chain, i)
      {
        RootPut(was, chain, i);
        r := PutMetadata(identity, RootFile(i + 1), RootBytes(chain[i]));
        if !r.Published? {
          return;
        }
        i := i + 1;
      }
    }

    /** The three role documents; an old timestamp is removed first. */
    method PutRoles(identity: string, b: Bundle) returns (r: Outcome)
      requires identity in generations
      modifies this
      ensures current == old(current) && identity in generations
      ensures generations == old(generations)[identity := generations[identity]]
      ensures r.Published? ==>
                (var was := old(generations)[identity];
                 && generations[identity] == was.(metadata := was.metadata + RoleFiles(b))
                 && Fits(was, TargetsFile(b.targets.doc.version), TargetsBytes(b.targets))
                 && Fits(was, SnapshotFile(b.snapshot.doc.version), SnapshotBytes(b.snapshot)))
      ensures r.Refused? ==>
                (var was := old(generations)[identity];
                 || !Fits(was, TargetsFile(b.targets.doc.version), TargetsBytes(b.targets))
                 || !Fits(was, SnapshotFile(b.snapshot.doc.version), SnapshotBytes(b.snapshot)))
    {
      ghost var was := generations[identity].metadata;
      RolesApart(was, b);
      hide RoleFiles;
      r := PutMetadata(identity, TargetsFile(b.targets.doc.version), TargetsBytes(b.targets));
      if !r.Published? {
        return;
      }
      r := PutMetadata(identity, SnapshotFile(b.snapshot.doc.version), SnapshotBytes(b.snapshot));
      if !r.Published? {
        return;
      }
      var g := generations[identity];
      generations := generations[identity := g.(metadata := g.metadata - {TimestampFile})];
      r := PutMetadata(identity, TimestampFile, TimestampBytes(b.timestamp));
    }

    method PutPayload(identity: string, e: Entry) returns (r: Outcome)
      requires identity in generations
      modifies this
      ensures current == old(current) && identity in generations
      ensures generations == old(generations)[identity := generations[identity]]
      ensures r.Published? ==>
                (var was := old(generations)[identity];
                 && generations[identity] == was.(targets := was.targets[TargetName(e.digest, e.name) := e.digest])
                 && (TargetName(e.digest, e.name) in was.targets ==> was.targets[TargetName(e.digest, e.name)] == e.digest))
      ensures r.Refused? ==>
                (var t := old(generations)[identity].targets;
                 TargetName(e.digest, e.name) in t && t[TargetName(e.digest, e.name)] != e.digest)
    {
      var g := generations[identity];
      var name := TargetName(e.digest, e.name);
      if name in g.targets {
        if g.targets[name] != e.digest {
          return Refused;
        }
        assert g.targets[name := e.digest] == g.targets;
        return Published;
      }
      if budget == 0 {
        return Interrupted;
      }
      budget := budget - 1;
      generations := generations[identity := g.(targets := g.targets[name := e.digest])];
      r := Published;
    }

    /** The copied files of the previous generation, as far as they could be created. */
    method Begin(identity: string, previous: Generation) returns (r: Outcome)
      requires identity !in generations
      modifies this
      ensures current == old(current) && generations.Keys == old(generations).Keys + {identity} && !r.Refused?
      ensures forall g | g in old(generations) :: generations[g] == old(generations)[g]
      ensures r.Published? ==> generations[identity] == previous
    {
      generations := generations[identity := EMPTY];
      var ok, metadata := Copy(previous.metadata);
      generations := generations[identity := Generation(metadata, map[])];
      if !ok {
        return Interrupted;
      }
      var done, targets := Copy(previous.targets);
      generations := generations[identity := Generation(metadata, targets)];
      r := if done then Published else Interrupted;
    }

    /** The generation is built beside the current one; nothing points to it yet. */
    method Build(identity: string, previous: Generation, v: View) returns (r: Outcome)
      requires identity !in generations && |v.bundle.targets.doc.entries| == 1
      modifies this
      ensures current == old(current) && generations.Keys == old(generations).Keys + {identity}
      ensures forall g | g in old(generations) :: generations[g] == old(generations)[g]
      ensures r.Published? ==> Clear(previous, v) && generations[identity] == Built(previous, v)
      ensures r.Refused? ==> !Clear(previous, v)
    {
      hide Built, RootFiles, RoleFiles, Fits;
      r := Begin(identity, previous);
      if !r.Published? {
        return;
      }
      r := PutRoots(identity, v.chain);
      if !r.Published? {
        return;
      }
      RootsApart(previous, v);
      r := PutRoles(identity, v.bundle);
      if !r.Published? {
        return;
      }
      r := PutPayload(identity, Sold(v));
      BuiltParts(previous, v);
    }

    /**
     * `publish_locked`: the old generation stays served unless the new one is served whole. It refuses
     * what does not advance before it touches the disk, and never gets a differently encoded document
     * through, though it notices only when the new generation, which stays, is partly built.
     */
    method Publish(size: Digest -> nat, v: View, identity: string, ghost u: Option<View>) returns (r: Outcome)
      requires Publishable(size, v) && identity !in generations
      requires if u.Some? then Serving(size, u.value) else current.None?
      modifies this
      ensures r.Published? ==>
                Serving(size, v) && current == Some(identity) && MayFollow(old(generations), u, v) && Unobstructed(v, u)
      ensures !r.Published? ==> current == old(current) && (u.Some? ==> Serving(size, u.value))
      ensures !MayFollow(old(generations), u, v) ==> r.Refused? && generations == old(generations)
      ensures MayFollow(old(generations), u, v) ==>
                && generations.Keys == old(generations).Keys + {identity}
                && (r.Refused? ==> !Unobstructed(v, u))
    {
      hide Publishable, ReleaseOk, ChainOk, Serves, Settled, Advances, Built, Admits, Clear, Unobstructed;
      OneEntry(size, v);
      if u.Some? {
        ServedEntry(size, generations[current.value], u.value);
      }
      MayFollowIff(generations, u, v);
      hide MayFollow;
      var ok, previous := Compare(size, v, u);
      if !ok {
        return Refused;
      }
      assert u.Some? ==> Advances(v, u.value) by {
        AdmittedAdvances(generations, u, v);
      }
      PublishedMirrors(size, previous, u, v);
      ClearIff(size, previous, v, u);
      r := Build(identity, previous, v);
      if r.Published? {
        current := Some(identity);
      }
    }

    /** `publish`: nothing expired or mismatched gets as far as the lock. */
    method Submit(size: Digest -> nat, v: View, rootExpires: nat, payload: Digest, now: nat, identity: string, ghost u: Option<View>)
      returns (r: Outcome)
      requires v.chain != [] && identity !in generations
      requires if u.Some? then Serving(size, u.value) else current.None?
      modifies this
      ensures r.Published? ==> Deserves(size, v, rootExpires, payload, now) && Serving(size, v)
      ensures !Deserves(size, v, rootExpires, payload, now) ==> r.Refused? && generations == old(generations)
      ensures !r.Published? ==> current == old(current) && (u.Some? ==> Serving(size, u.value))
      ensures Deserves(size, v, rootExpires, payload, now) && MayFollow(old(generations), u, v) && Unobstructed(v, u) ==>
                !r.Refused?
    {
      DeservesIff(size, v, rootExpires, payload, now);
      hide Deserves;
      if !Offered(size, v, rootExpires, payload, now) {
        return Refused;
      }
      assert Publishable(size, v);
      hide Publishable, Offered, ChainOk, ReleaseOk, Serves, Settled, Admits;
      r := Publish(size, v, identity, u);
    }

    /** What is served now allows the publication. */
    method Compare(size: Digest -> nat, v: View, ghost u: Option<View>) returns (ok: bool, previous: Generation)
      requires |v.bundle.targets.doc.entries| == 1 && (u.Some? ==> |u.value.bundle.targets.doc.entries| == 1)
      requires if u.Some? then Serving(size, u.value) else current.None?
      ensures ok <==> Admits(generations, u, v)
      ensures u.None? ==> previous == EMPTY
      ensures u.Some? ==> previous == generations[current.value]
    {
      hide Advances, Serves, Settled;
      previous := EMPTY;
      ok := true;
      if current.Some? {
        previous := generations[current.value];
        var served := Read(size, previous, u.value);
        ok := Advances(v, served);
      } else {
        ok := |generations| == 0;
      }
      ok := ok && |generations| < RETENTION_QUOTA;
    }

    /** `current`: the pointer leads to one timestamp, its snapshot, its targets and the root history. */
    method Read(size: Digest -> nat, g: Generation, ghost u: View) returns (v: View)
      requires Serves(size, g, u)
      ensures v == u
    {
      assert Holds(g, TimestampFile, TimestampBytes(u.bundle.timestamp));
      var timestamp := g.metadata[TimestampFile].timestamp;
      assert timestamp == u.bundle.timestamp;
      var snapshot := g.metadata[SnapshotFile(timestamp.doc.link.version)].snapshot;
      assert snapshot == u.bundle.snapshot;
      var targets := g.metadata[TargetsFile(snapshot.doc.meta["targets.json"].version)].targets;
      var files := map n | n in g.metadata && n.RootFile? && g.metadata[n].RootBytes? :: n.version := g.metadata[n].root;
      RootListing(size, g, u, files);
      hide Serves;
      var chain := ReadRoots(files);
      ListsOnce(files, u.chain);
      v := View(chain.value, Bundle(targets, snapshot, timestamp));
    }
  }
}
