/** The root-owned local policy, fixed for a run. */
module LocalPolicy {
  import opened AgentUpdate
  import opened Trust

  type Digest = string

  datatype Artifact = Artifact(digest: Digest, sequence: nat)

  datatype Policy = Policy(
    enabled: bool,
    allowRemote: bool,
    channel: string,
    target: string,
    baseline: Artifact,
    minimumSequence: nat,
    trialSeconds: nat,
    stabilitySeconds: nat,
    anchor: Digest,
    bootstrap: Root)

  predicate ValidDigest(d: Digest) {
    |d| == 64 && forall i :: 0 <= i < |d| ==> LowerHex(d[i])
  }

  predicate ValidArtifact(a: Artifact) {
    ValidDigest(a.digest) && ValidSequence(a.sequence)
  }

  /** `validate_paused`, plus the offline bootstrap root being a root document. */
  predicate ValidPolicy(p: Policy) {
    && ValidChannel(p.channel)
    && ValidArtifact(p.baseline)
    && ValidSequence(p.minimumSequence)
    && p.minimumSequence <= p.baseline.sequence
    && 5 <= p.stabilitySeconds <= 60
    && p.stabilitySeconds < p.trialSeconds <= 300
    && SelfSigned(p.bootstrap)
  }
}
