/**
 * Root metadata. A document stands for its own collision-free digest, so the journal's map from
 * version to digest is a map from version to document; signature checks are counted over keys.
 */
module Trust {
  import opened Options

  const ROOT_QUOTA := 128

  datatype Root = Root(version: nat, keys: set<nat>, threshold: nat, body: nat, signers: set<nat>)

  /** `verify_role`: enough of `authority`'s keys signed `document`. */
  predicate Authorises(authority: Root, document: Root) {
    authority.threshold > 0 && |authority.keys * document.signers| >= authority.threshold
  }

  /** `root_version` succeeds only for a self-signed document with a non-zero version. */
  predicate SelfSigned(r: Root) {
    r.version > 0 && Authorises(r, r)
  }

  /** Equality of the signed part; signatures may differ. */
  predicate SameSigned(a: Root, b: Root) {
    a.(signers := {}) == b.(signers := {})
  }

  /** `roots.range(..version).next_back()` */
  function Latest(roots: map<nat, Root>, version: nat): (r: Option<nat>)
    ensures r.Some? ==> r.value < version && r.value in roots
    ensures r.Some? ==> forall v :: r.value < v < version ==> v !in roots
    ensures r.None? ==> forall v :: 0 <= v < version ==> v !in roots
    decreases version
  {
    if version == 0 then None
    else if version - 1 in roots then Some(version - 1)
    else Latest(roots, version - 1)
  }

  /** The document a new root must follow. */
  function Predecessor(roots: map<nat, Root>, initial: Root, version: nat): Root {
    var latest := Latest(roots, version);
    if latest.Some? && latest.value >= initial.version then roots[latest.value] else initial
  }

  /** `verify_continuity` */
  predicate Continues(roots: map<nat, Root>, initial: Root, next: Root) {
    var previous := Predecessor(roots, initial, next.version);
    && (if next.version == previous.version then SameSigned(previous, next)
        else next.version == previous.version + 1)
    && Authorises(previous, next)
  }

  /** The recorded versions are exactly `lo .. lo + |roots|`, chained back to the bootstrap root. */
  ghost predicate Spans(bootstrap: Root, roots: map<nat, Root>, lo: nat) {
    && bootstrap.version <= lo <= bootstrap.version + 1
    && |roots| <= ROOT_QUOTA
    && (forall v :: v in roots <==> lo <= v < lo + |roots|)
    && (forall v | v in roots :: roots[v].version == v && SelfSigned(roots[v]))
    && (forall v | v in roots :: Authorised(bootstrap, roots, v))
  }

  ghost predicate Authorised(bootstrap: Root, roots: map<nat, Root>, v: nat)
    requires v in roots
  {
    if v == bootstrap.version then SameSigned(bootstrap, roots[v]) && Authorises(bootstrap, roots[v])
    else
      v > 0 && Authorises(if v - 1 in roots then roots[v - 1] else bootstrap, roots[v])
  }

  /** This very document is recorded under its version. */
  predicate Recorded(roots: map<nat, Root>, r: Root) {
    r.version in roots && roots[r.version] == r
  }

  ghost predicate Chain(bootstrap: Root, roots: map<nat, Root>) {
    exists lo: nat :: Spans(bootstrap, roots, lo)
  }

  /** Authority is a matter of the signed part. */
  lemma SameAuthority(a: Root, b: Root, document: Root)
    requires SameSigned(a, b)
    ensures Authorises(a, document) == Authorises(b, document)
  {
    assert a.(signers := {}).keys == b.(signers := {}).keys;
    assert a.(signers := {}).threshold == b.(signers := {}).threshold;
  }

  /** Where a continuing root may land, and whose authority admitted it. */
  lemma NextPlace(bootstrap: Root, roots: map<nat, Root>, lo: nat, initial: Root, next: Root)
    requires Spans(bootstrap, roots, lo)
    requires initial == bootstrap || initial.version in roots
    requires next.version > 0 && next.version !in roots && Continues(roots, initial, next)
    ensures roots == map[] || next.version < lo ==>
              && Predecessor(roots, initial, next.version) == bootstrap
              && bootstrap.version <= next.version <= bootstrap.version + 1
    ensures roots != map[] && next.version < lo ==> next.version == bootstrap.version
    ensures roots != map[] && next.version >= lo ==>
              && next.version == lo + |roots|
              && Predecessor(roots, initial, next.version) == roots[next.version - 1]
  {
    hide Authorises, SelfSigned, Authorised;
    var v := next.version;
    var latest := Latest(roots, v);
    if roots != map[] {
      assert lo in roots && lo + |roots| - 1 in roots;
      if v >= lo {
        assert v >= lo + |roots|;
        assert latest == Some(lo + |roots| - 1);
      }
    }
  }

  lemma ChainStarts(bootstrap: Root, next: Root)
    requires SelfSigned(next) && Continues(map[], bootstrap, next)
    ensures Spans(bootstrap, map[next.version := next], next.version)
  {
    hide Authorises;
  }

  /** The bootstrap document itself may be recorded below its successor. */
  lemma ChainStartsLower(bootstrap: Root, roots: map<nat, Root>, lo: nat, next: Root)
    requires Spans(bootstrap, roots, lo) && roots != map[] && |roots| < ROOT_QUOTA
    requires next.version == bootstrap.version && next.version < lo
    requires SelfSigned(next) && SameSigned(bootstrap, next) && Authorises(bootstrap, next)
    ensures Spans(bootstrap, roots[next.version := next], next.version)
  {
    hide SelfSigned;
    var v := next.version;
    var grown := roots[v := next];
    forall u | u in grown ensures Authorised(bootstrap, grown, u) {
      if u == v + 1 {
        SameAuthority(bootstrap, next, roots[u]);
      } else if u > v + 1 {
        assert u - 1 in roots;
      }
    }
  }

  lemma ChainGrows(bootstrap: Root, roots: map<nat, Root>, lo: nat, next: Root)
    requires Spans(bootstrap, roots, lo) && roots != map[] && |roots| < ROOT_QUOTA
    requires next.version == lo + |roots| && SelfSigned(next)
    requires next.version - 1 in roots && Authorises(roots[next.version - 1], next)
    ensures Spans(bootstrap, roots[next.version := next], lo)
  {
    hide SelfSigned, Authorises, SameSigned;
    var v := next.version;
    var grown := roots[v := next];
    forall u | u in grown ensures Authorised(bootstrap, grown, u) {
      if u != v {
        assert Authorised(bootstrap, roots, u);
      }
    }
  }

  /**
   * A captured root extends the chain: at its top, or by the bootstrap document itself. `initial` is
   * the bootstrap root or carries a recorded version.
   */
  lemma ChainExtends(bootstrap: Root, roots: map<nat, Root>, initial: Root, next: Root)
    requires Chain(bootstrap, roots)
    requires initial == bootstrap || initial.version in roots
    requires SelfSigned(next) && next.version !in roots && Continues(roots, initial, next)
    requires |roots| < ROOT_QUOTA
    ensures Chain(bootstrap, roots[next.version := next])
  {
    var lo: nat :| Spans(bootstrap, roots, lo);
    NextPlace(bootstrap, roots, lo, initial, next);
    var previous := Predecessor(roots, initial, next.version);
    hide Spans, Predecessor, Latest, Authorises, SameSigned;
    if roots == map[] {
      assert Predecessor(map[], bootstrap, next.version) == bootstrap by {
        PredecessorOfNone(bootstrap, next.version);
      }
      ChainStarts(bootstrap, next);
    } else if next.version < lo {
      ChainStartsLower(bootstrap, roots, lo, next);
    } else {
      RecordedVersion(bootstrap, roots, lo, next.version - 1);
      ChainGrows(bootstrap, roots, lo, next);
    }
  }

  lemma PredecessorOfNone(bootstrap: Root, version: nat)
    ensures Predecessor(map[], bootstrap, version) == bootstrap
  {
  }

  lemma RecordedVersion(bootstrap: Root, roots: map<nat, Root>, lo: nat, v: nat)
    requires Spans(bootstrap, roots, lo) && v == lo + |roots| - 1 && roots != map[]
    ensures v in roots && roots[v].version == v
  {
  }
}
