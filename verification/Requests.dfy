/** Writes that only concern the remote request: its acceptance, its report and its repair. */
module Requests {
  import opened AgentUpdate
  import opened LocalPolicy
  import opened Trust
  import opened Journals
  import opened Disks
  import opened Worlds

  /** Everything but the request record stays. */
  predicate Aside(a: Journal, b: Journal) {
    && Snapshot(b) == a.(remote := Snapshot(b).remote) && b.phase == a.phase
    && RemoteValid(Snapshot(b))
    && (b.remote.Some? ==> b.remote.value.acceptedAt + UPDATE_COOLDOWN_SECS < LIMIT_53)
  }

  lemma AsideLawful(p: Policy, a: Journal, b: Journal)
    requires Lawful(p, a) && Validate(p, a) && Aside(a, b)
    ensures Lawful(p, Snapshot(b))
  {
    SnapshotIdempotent(b);
    var sb := Snapshot(b);
    assert b.remote.Some? <==> sb.remote.Some?;
    assert b.remote.Some? ==> sb.remote.value.acceptedAt == b.remote.value.acceptedAt;
    hide Snapshot, RemoteValid, ValidDigest;
  }

  lemma AsideDisk(p: Policy, d: Disk, b: Journal)
    requires DiskInv(p, d) && Validate(p, d.journal) && Aside(d.journal, b)
    ensures DiskInv(p, Apply(d, SaveJournal(b)))
  {
    AsideLawful(p, d.journal, b);
    hide Lawful, Validate, Snapshot, Chain;
  }

  lemma AsideRemembered(a: Journal, b: Journal, h: History)
    requires Aside(a, b) && h.note.None?
    ensures var h' := Remember(h, a, Snapshot(b));
            && h' == h.(accepted := h'.accepted, accepting := h'.accepting)
            && h'.accepting == (h.accepting || Accepts(a, Snapshot(b)))
            && h'.accepted == (if Accepts(a, Snapshot(b))
                               then h.accepted + [Acceptance(Snapshot(b).remote.value.request, Snapshot(b).remote.value.acceptedAt)]
                               else h.accepted)
  {
    hide RemoteValid;
  }

  lemma AsideHistory(env: Env, a: Journal, b: Journal, h: History)
    requires Aside(a, b) && h.note.None?
    requires BarrierInv(env, a, h) && StreakInv(a, h) && FailedInv(a, h)
    ensures var h' := Remember(h, a, Snapshot(b)); var sb := Snapshot(b);
            BarrierInv(env, sb, h') && StreakInv(sb, h') && FailedInv(sb, h')
  {
    AsideRemembered(a, b, h);
    hide Remember, RemoteValid;
  }

  lemma AsideEvolves(a: Journal, b: Journal)
    requires Aside(a, b) && RemoteMove(a, Snapshot(b))
    ensures Evolves(a, Snapshot(b))
  {
    hide RemoteMove, RemoteValid;
  }

  lemma AsideSaved(p: Policy, env: Env, s: State, b: Journal)
    requires Inv(p, env, s) && Validate(p, s.disk.journal) && Aside(s.disk.journal, b) && s.hist.note.None?
    requires RemoteMove(s.disk.journal, Snapshot(b))
    requires var h' := Remember(s.hist, s.disk.journal, Snapshot(b));
             TruthInv(Snapshot(b), h') && AcceptedInv(Snapshot(b), h')
    ensures Permitted(p, s, SaveJournal(b)) && Inv(p, env, Do(s, SaveJournal(b)))
    ensures Do(s, SaveJournal(b)).disk == s.disk.(journal := Snapshot(b))
  {
    var a := s.disk.journal;
    AsideEvolves(a, b);
    AsideHistory(env, a, b, s.hist);
    assert !(a.phase == Phase.Trial && b.phase == Phase.Committed);
    hide Validate, Aside, Evolves, RemoteMove, Snapshot, Remember, BarrierInv, StreakInv, FailedInv, TruthInv, AcceptedInv;
    AsideDisk(p, s.disk, b);
    hide DiskInv;
  }

  // ---- a status alone ---------------------------------------------------------------------------------

  /** Only the status record of the stored request differs, and it reports no new commit. */
  predicate StatusOnly(a: Journal, b: Journal) {
    && (if a.remote.Some? then
          && b.remote.Some? && b == WithStatus(a, b.remote.value.status)
          && b.remote.value.status.requestId == a.remote.value.status.requestId
          && b.remote.value.status.updatedAt == a.remote.value.status.updatedAt
          && b.remote.value.status.targetSequence == a.remote.value.status.targetSequence
        else b == a)
  }

  /** A report that does not touch a stored commit. */
  lemma StatusSaved(p: Policy, env: Env, s: State, b: Journal)
    requires Inv(p, env, s) && ValidPolicy(p) && Validate(p, s.disk.journal) && s.hist.note.None?
    requires StatusOnly(s.disk.journal, b)
    requires s.disk.journal.remote.Some? && b != s.disk.journal ==>
               s.disk.journal.remote.value.status.phase != UpdatePhase.Committed
               && b.remote.value.status.phase != UpdatePhase.Committed
               && (Owns(b) ==> b.phase != Phase.Committed)
    ensures Permitted(p, s, SaveJournal(b)) && Inv(p, env, Do(s, SaveJournal(b)))
    ensures Do(s, SaveJournal(b)).disk == s.disk.(journal := Snapshot(b))
    ensures Do(s, SaveJournal(b)).hist == s.hist
  {
    var a := s.disk.journal;
    assert a == Snapshot(a) && TruthInv(a, s.hist) && AcceptedInv(a, s.hist);
    StatusAside(p, a, b);
    AsideRemembered(a, b, s.hist);
    StatusTruth(a, b, s.hist);
    hide Inv, Validate, Snapshot, Aside, Accepts, Remember, TruthInv, AcceptedInv, RemoteMove, StatusOnly;
    AsideSaved(p, env, s, b);
  }

  lemma StatusAside(p: Policy, a: Journal, b: Journal)
    requires ValidPolicy(p) && Validate(p, a) && Lawful(p, a) && a == Snapshot(a) && StatusOnly(a, b)
    requires a.remote.Some? && b != a ==> a.remote.value.status.phase != UpdatePhase.Committed
    ensures Aside(a, b) && !Accepts(a, Snapshot(b)) && RemoteMove(a, Snapshot(b))
  {
    hide ValidDigest, TransactionValid;
  }

  lemma StatusTruth(a: Journal, b: Journal, h: History)
    requires a == Snapshot(a) && StatusOnly(a, b) && TruthInv(a, h) && AcceptedInv(a, h)
    requires a.remote.Some? && b != a ==>
               a.remote.value.status.phase != UpdatePhase.Committed
               && b.remote.value.status.phase != UpdatePhase.Committed
               && (Owns(b) ==> b.phase != Phase.Committed)
    ensures TruthInv(Snapshot(b), h) && AcceptedInv(Snapshot(b), h)
  {
  }

  /** The report at the end of a remote run, after its apply and whatever became of it. */
  lemma ReportedSaved(p: Policy, env: Env, s: State, failed: bool)
    requires Inv(p, env, s) && ValidPolicy(p) && Validate(p, s.disk.journal) && s.hist.note.None?
    requires s.hist.accepting
    ensures var b := Reported(s.disk.journal, failed);
            Permitted(p, s, SaveJournal(b)) && Inv(p, env, Do(s, SaveJournal(b)))
  {
    var a := s.disk.journal;
    assert TruthInv(a, s.hist);
    hide Inv, Validate;
    StatusSaved(p, env, s, Reported(a, failed));
  }

  // ---- acceptance -----------------------------------------------------------------------------------------

  lemma AcceptedAside(p: Policy, a: Journal, request: Request, now: nat)
    requires ValidPolicy(p) && Validate(p, a) && Lawful(p, a) && Accept(p, a, request, now).Ok?
    requires now + UPDATE_COOLDOWN_SECS < LIMIT_53
    ensures var b := Accept(p, a, request, now).value;
            && Aside(a, b) && Accepts(a, Snapshot(b)) && RemoteMove(a, Snapshot(b))
            && Snapshot(b).remote.value.request == request && Snapshot(b).remote.value.acceptedAt == now
            && Snapshot(b).remote.value.target.None?
            && Snapshot(b).remote.value.status.phase == Downloading
  {
    hide ValidDigest, TransactionValid;
  }

  lemma AcceptedHistory(a: Journal, sb: Journal, h: History, h': History)
    requires RemoteMove(a, sb) && Accepts(a, sb) && sb == a.(remote := sb.remote) && Terminal(a.phase)
    requires RemoteValid(sb) && sb.remote.value.target.None? && sb.remote.value.status.phase == Downloading
    requires TruthInv(a, h) && AcceptedInv(a, h)
    requires h' == h.(accepting := true,
                      accepted := h.accepted + [Acceptance(sb.remote.value.request, sb.remote.value.acceptedAt)])
    ensures TruthInv(sb, h') && AcceptedInv(sb, h')
  {
    assert AcceptedInv(sb, h') by {
      hide TruthInv, ValidRequest;
      forall i, k | 0 <= i < k < |h'.accepted|
        ensures h'.accepted[k].at >= h'.accepted[i].at + UPDATE_COOLDOWN_SECS
      {
        if k == |h.accepted| {
          var last := |h.accepted| - 1;
          assert h.accepted[last] == Acceptance(a.remote.value.request, a.remote.value.acceptedAt);
          assert i < last ==> h.accepted[last].at >= h.accepted[i].at + UPDATE_COOLDOWN_SECS;
        }
      }
    }
  }

  lemma AcceptSaved(p: Policy, env: Env, s: State, request: Request, now: nat)
    requires ValidPolicy(p) && Inv(p, env, s) && Validate(p, s.disk.journal) && s.hist.note.None?
    requires Accept(p, s.disk.journal, request, now).Ok? && now + UPDATE_COOLDOWN_SECS < LIMIT_53
    ensures var w := SaveJournal(Accept(p, s.disk.journal, request, now).value);
            Permitted(p, s, w) && Inv(p, env, Do(s, w))
  {
    var a := s.disk.journal;
    var b := Accept(p, a, request, now).value;
    var sb := Snapshot(b);
    assert Lawful(p, a) && TruthInv(a, s.hist) && AcceptedInv(a, s.hist) && Terminal(a.phase);
    AcceptedAside(p, a, request, now);
    AsideRemembered(a, b, s.hist);
    assert sb == a.(remote := sb.remote) && RemoteValid(sb);
    hide Inv, Validate, Lawful, Snapshot, Aside, Accepts, Accept, Remember, TruthInv, AcceptedInv, RemoteMove, RemoteValid;
    AcceptedHistory(a, sb, s.hist, Remember(s.hist, a, sb));
    AsideSaved(p, env, s, b);
  }
}
