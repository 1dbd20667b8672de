/** The request and status records exchanged between server, agent and updater. */
module AgentUpdate {
  import opened Options

  const REQUEST_LIFETIME_SECS := 60
  const UPDATE_COOLDOWN_SECS := 300
  const LIMIT_53 := 0x20_0000_0000_0000
  const U64_MAX := 0xFFFF_FFFF_FFFF_FFFF

  datatype Request = Request(id: string, issuedAt: nat, expiresAt: nat)

  datatype Capability = Ready | Disabled | Unsupported | RecoveryNeeded

  datatype UpdatePhase =
    | Idle | Queued | Downloading | Prepared | Stopping | Trial | RollingBack
    | Committed | UpToDate | RolledBack | Failed | ManualRecovery | Unknown

  datatype Reason =
    | NotEnrolled | DisabledByPolicy | UnsupportedEnvironment | LocalStateInvalid | InvalidRequest
    | RateLimited | Busy | UpdateFailed | RequestExpired | OperatorNeeded

  datatype Status = Status(
    capability: Capability,
    phase: UpdatePhase,
    requestId: Option<string>,
    updatedAt: nat,
    nextRequestAt: nat,
    installedSequence: Option<nat>,
    targetSequence: Option<nat>,
    channel: Option<string>,
    reason: Option<Reason>)

  /** Never more than the greatest 64-bit number, and less than the sum only where that is greater. */
  function SaturatingAdd(a: nat, b: nat): (r: nat)
    ensures r <= a + b && (r < a + b ==> r == 0xFFFF_FFFF_FFFF_FFFF)
    ensures a <= 0xFFFF_FFFF_FFFF_FFFF ==> a <= r <= 0xFFFF_FFFF_FFFF_FFFF
  {
    if a + b <= U64_MAX then a + b else U64_MAX
  }

  predicate LowerHex(c: char) {
    '0' <= c <= '9' || 'a' <= c <= 'f'
  }

  predicate ValidRequestId(id: string) {
    |id| == 32 && forall i :: 0 <= i < |id| ==> LowerHex(id[i])
  }

  /** Lower-case hexadecimal digits are these sixteen. */
  lemma HexDigits(s: string)
    ensures (forall i | 0 <= i < |s| :: LowerHex(s[i])) <==> (forall i | 0 <= i < |s| :: s[i] in "0123456789abcdef")
  {
    forall i | 0 <= i < |s| ensures LowerHex(s[i]) <==> s[i] in "0123456789abcdef" {
      HexDigit(s[i]);
    }
  }

  lemma HexDigit(c: char)
    ensures LowerHex(c) <==> c in "0123456789abcdef"
  {
    var digits := "0123456789abcdef";
    if '0' <= c <= '9' {
      assert digits[c as int - '0' as int] == c;
    } else if 'a' <= c <= 'f' {
      assert digits[10 + (c as int - 'a' as int)] == c;
    }
  }

  predicate ValidRequest(r: Request, now: nat) {
    && ValidRequestId(r.id)
    && r.issuedAt <= SaturatingAdd(now, 5)
    && r.expiresAt > now
    && r.expiresAt > r.issuedAt
    && r.expiresAt - r.issuedAt <= REQUEST_LIFETIME_SECS
    && r.expiresAt < LIMIT_53
  }

  predicate InProgress(p: UpdatePhase) {
    p in {Queued, Downloading, Prepared, Stopping, Trial, RollingBack}
  }

  predicate ValidChannel(channel: string) {
    channel == "stable" || channel == "testing"
  }

  predicate ValidSequence(n: nat) {
    0 < n < LIMIT_53
  }

  predicate ValidStatus(s: Status) {
    && (s.requestId.Some? ==> ValidRequestId(s.requestId.value))
    && s.updatedAt < LIMIT_53
    && s.nextRequestAt < LIMIT_53
    && (s.installedSequence.Some? ==> ValidSequence(s.installedSequence.value))
    && (s.targetSequence.Some? ==> ValidSequence(s.targetSequence.value))
    && (s.channel.Some? ==> ValidChannel(s.channel.value))
    && (InProgress(s.phase) ==> s.requestId.Some?)
  }

  function Unavailable(capability: Capability, reason: Reason): Status {
    Status(capability, Idle, None, 0, 0, None, None, None, Some(reason))
  }

  /** A request is dead 65 seconds after any moment at which it was valid, well inside the cooldown. */
  lemma RequestLifetime(r: Request, accepted: nat, later: nat)
    requires ValidRequest(r, accepted)
    requires later >= accepted + 65
    ensures !ValidRequest(r, later)
  {
  }
}
