/** The server's view of one update request per node, fed only by the node's current session. */
module ServerUpdates {
  import opened Options
  import opened AgentUpdate

  const CAPACITY := 4096
  const OFFLINE_SECS := 3600

  datatype Entry = Entry(
    session: nat, online: bool, reported: bool, touched: nat,
    requested: Option<nat>, request: Option<Request>, status: Status)

  type Entries = map<string, Entry>

  datatype Error = NotAvailable | Pending | RateLimited

  const BLANK := Entry(0, false, false, 0, None, None, Unavailable(Disabled, NotEnrolled))

  /** Times are seconds of one clock. */
  datatype Op =
    | Begin(node: string, session: nat)
    | Finish(node: string, session: nat)
    | Record(node: string, session: nat, status: Status)
    | Reserve(node: string, request: Request)
    | DeliveryFailed(node: string, id: string)
    | Forget(node: string)

  datatype Event = Event(at: nat, op: Op)

  // ---- the entries ----------------------------------------------------------------------------------------

  function Retained(m: Entries, at: nat): Entries {
    map n | n in m && Recent(m[n], at) :: m[n]
  }

  predicate Recent(e: Entry, at: nat) {
    e.online || at < e.touched + OFFLINE_SECS
  }

  function Begun(m: Entries, at: nat, node: string, session: nat): Entries {
    var kept := Retained(m, at);
    if node !in kept && |kept| >= CAPACITY then kept
    else
      var e := if node in kept then kept[node] else BLANK.(touched := at);
      kept[node := if session > e.session then e.(session := session, online := true, reported := false, touched := at) else e]
  }

  /** The report is about the reserved request, or there is none. */
  predicate Matches(e: Entry, s: Status) {
    e.request.None? || s.requestId == Some(e.request.value.id)
  }

  function Told(e: Entry, at: nat, s: Status): Entry {
    var heard := e.(reported := true, touched := at);
    if Matches(e, s) then heard.(status := s)
    else
      var status := e.status.(capability := s.capability);
      var latched := if s.capability == RecoveryNeeded then status.(phase := UpdatePhase.ManualRecovery) else status;
      heard.(status := if s.capability != Ready then latched.(reason := s.reason) else latched)
  }

  /** A queued request that expired before this one was issued is given up. */
  function Lapsed(e: Entry, issuedAt: nat): Entry {
    if e.status.phase == Queued && e.request.Some? && e.request.value.expiresAt <= issuedAt
    then e.(status := e.status.(phase := Unknown, reason := Some(RequestExpired))) else e
  }

  function Refusal(e: Entry, at: nat, r: Request): Option<Error> {
    if !e.online || !e.reported || e.status.capability != Ready then Some(NotAvailable)
    else if InProgress(e.status.phase) then Some(Error.Pending)
    else if (e.requested.Some? && at < e.requested.value + UPDATE_COOLDOWN_SECS) || r.issuedAt < e.status.nextRequestAt
      then Some(Error.RateLimited)
    else None
  }

  function Queue(e: Entry, at: nat, r: Request): Entry {
    e.(requested := Some(at), touched := at, request := Some(r),
       status := e.status.(phase := Queued, requestId := Some(r.id), updatedAt := r.issuedAt, reason := None))
  }

  function Reserved(e: Entry, at: nat, r: Request): Entry {
    var lapsed := Lapsed(e, r.issuedAt);
    if Refusal(lapsed, at, r).Some? then lapsed else Queue(lapsed, at, r)
  }

  predicate Current(m: Entries, node: string, session: nat) {
    node in m && m[node].session == session
  }

  function Run(m: Entries, at: nat, op: Op): Entries {
    match op
    case Begin(node, session) => Begun(m, at, node, session)
    case Finish(node, session) =>
      if Current(m, node, session) then m[node := m[node].(online := false, touched := at)] else m
    case Record(node, session, status) =>
      if Current(m, node, session) && m[node].online then m[node := Told(m[node], at, status)] else m
    case Reserve(node, request) => if node in m then m[node := Reserved(m[node], at, request)] else m
    case DeliveryFailed(node, id) =>
      if node in m && m[node].status.requestId == Some(id)
      then m[node := m[node].(status := m[node].status.(phase := UpdatePhase.Failed, reason := Some(UpdateFailed)))]
      else m
    case Forget(node) => m - {node}
  }

  /** What the entries are after the first events. */
  function After(events: seq<Event>): Entries {
    if events == [] then map[]
    else
      var last := events[|events| - 1];
      Run(After(events[..|events| - 1]), last.at, last.op)
  }

  datatype View = View(status: Status, ready: bool, reported: bool)

  function ViewOf(m: Entries, node: string, now: nat, at: nat): View {
    if node !in m then View(Unavailable(Disabled, NotEnrolled), false, false)
    else
      var e := m[node];
      var shown := if e.status.phase == Queued && e.request.Some? && e.request.value.expiresAt <= now
                   then e.status.(phase := Unknown, reason := Some(RequestExpired)) else e.status;
      var status := if e.reported then shown else shown.(capability := Disabled);
      View(status,
           && e.online && e.reported
           && (e.requested.None? || at >= e.requested.value + UPDATE_COOLDOWN_SECS)
           && status.capability == Ready && now >= status.nextRequestAt && !InProgress(status.phase),
           e.reported)
  }

  // ---- truthfulness over whole histories ------------------------------------------------------------------------

  /** Event `k` is the node's own report, in its session of that moment, that `request` was committed. */
  predicate ConfirmedAt(events: seq<Event>, k: nat, node: string, request: Request)
    requires k < |events|
  {
    var m, op := After(events[..k]), events[k].op;
    && op.Record? && op.node == node && Current(m, node, op.session) && m[node].online
    && m[node].request == Some(request)
    && op.status.phase == UpdatePhase.Committed && op.status.requestId == Some(request.id)
  }

  ghost predicate Confirmed(events: seq<Event>, n: nat, node: string, request: Request)
    requires n <= |events|
  {
    exists k: nat :: k < n && ConfirmedAt(events, k, node, request)
  }

  predicate ClaimsCommit(m: Entries, node: string, request: Request) {
    node in m && m[node].request == Some(request) && m[node].status.phase == UpdatePhase.Committed
  }

  /** A claim is either carried over from before the event or made by a matching report. */
  lemma ClaimArises(m: Entries, e: Event, node: string, request: Request)
    requires ClaimsCommit(Run(m, e.at, e.op), node, request)
    ensures ClaimsCommit(m, node, request)
            || (&& e.op.Record? && e.op.node == node && Current(m, node, e.op.session) && m[node].online
                && m[node].request == Some(request)
                && e.op.status.phase == UpdatePhase.Committed && e.op.status.requestId == Some(request.id))
  {
  }

  lemma {:induction false} ClaimsAreConfirmed(events: seq<Event>, n: nat, node: string, request: Request)
    requires n <= |events| && ClaimsCommit(After(events[..n]), node, request)
    ensures Confirmed(events, n, node, request)
    decreases n
  {
    if n > 0 {
      var before := events[..n - 1];
      assert events[..n][..n - 1] == before;
      ClaimArises(After(before), events[n - 1], node, request);
      if ClaimsCommit(After(before), node, request) {
        ClaimsAreConfirmed(events, n - 1, node, request);
      } else {
        assert ConfirmedAt(events, n - 1, node, request);
      }
    }
  }

  /**
   * Whatever sessions come and go and whatever they report: the view shows a reserved request as
   * committed only after the node reported just that, about that request, in its current session.
   */
  lemma CommittedOnlyWhenReported(events: seq<Event>, node: string, now: nat, at: nat, request: Request)
    requires node in After(events) && After(events)[node].request == Some(request)
    requires ViewOf(After(events), node, now, at).status.phase == UpdatePhase.Committed
    ensures Confirmed(events, |events|, node, request)
  {
    assert events[..|events|] == events;
    ClaimsAreConfirmed(events, |events|, node, request);
  }

  /** Event `k` is a report of the session the node has in `m`. */
  predicate HeardAt(events: seq<Event>, k: nat, node: string, session: nat)
    requires k < |events|
  {
    events[k].op.Record? && events[k].op.node == node && events[k].op.session == session
  }

  lemma ReportedArises(m: Entries, e: Event, node: string)
    requires var t := Run(m, e.at, e.op); node in t && t[node].reported
    ensures var t := Run(m, e.at, e.op);
            || (node in m && m[node].reported && m[node].session == t[node].session)
            || (e.op.Record? && e.op.node == node && e.op.session == t[node].session)
  {
  }

  /** Readiness is never inherited: some report came from the very session that is current. */
  lemma {:induction false} ReadyOnlyWhenReported(events: seq<Event>, n: nat, node: string)
    requires n <= |events| && node in After(events[..n]) && After(events[..n])[node].reported
    ensures exists k: nat :: k < n && HeardAt(events, k, node, After(events[..n])[node].session)
    decreases n
  {
    if n > 0 {
      var before := events[..n - 1];
      assert events[..n][..n - 1] == before;
      ReportedArises(After(before), events[n - 1], node);
      var session := After(events[..n])[node].session;
      if HeardAt(events, n - 1, node, session) {
      } else {
        ReadyOnlyWhenReported(events, n - 1, node);
      }
    }
  }

  /** A reservation is granted exactly to an idle, reporting, cooled-down node, and starts its own cooldown. */
  lemma ReservationCoolsDown(m: Entries, node: string, first: nat, r: Request, second: nat, s: Request)
    requires node in m && Refusal(Lapsed(m[node], r.issuedAt), first, r).None?
    requires var t := Run(m, first, Reserve(node, r)); Refusal(Lapsed(t[node], s.issuedAt), second, s).None?
    ensures second >= first + UPDATE_COOLDOWN_SECS && s.issuedAt >= r.expiresAt
  {
  }

  // ---- bounds and order -------------------------------------------------------------------------------------------

  /** The store never holds more than its capacity, whatever happens. */
  lemma {:induction false} CapacityHolds(events: seq<Event>)
    ensures |After(events)| <= CAPACITY
    decreases |events|
  {
    if events != [] {
      var last := events[|events| - 1];
      CapacityHolds(events[..|events| - 1]);
      RunFits(After(events[..|events| - 1]), last.at, last.op);
    }
  }

  lemma RunFits(m: Entries, at: nat, op: Op)
    requires |m| <= CAPACITY
    ensures |Run(m, at, op)| <= CAPACITY
  {
    hide Told, Reserved, Retained;
    if op.Begin? {
      RetainedFits(m, at);
      BegunFits(m, at, op.node, op.session);
    } else {
      var t := Run(m, at, op);
      assert t.Keys <= m.Keys;
      SubsetFits(t.Keys, m.Keys);
      assert |t| == |t.Keys| && |m| == |m.Keys|;
    }
  }

  lemma BegunFits(m: Entries, at: nat, node: string, session: nat)
    requires |Retained(m, at)| <= CAPACITY
    ensures |Begun(m, at, node, session)| <= CAPACITY
  {
    hide Retained;
    var kept := Retained(m, at);
    if node in kept {
      assert Begun(m, at, node, session).Keys == kept.Keys;
    } else if |kept| < CAPACITY {
      assert Begun(m, at, node, session).Keys == kept.Keys + {node};
    }
  }

  lemma RetainedFits(m: Entries, at: nat)
    ensures |Retained(m, at)| <= |m|
  {
    SubsetFits(Retained(m, at).Keys, m.Keys);
  }

  lemma SubsetFits<T>(a: set<T>, b: set<T>)
    requires a <= b
    ensures |a| <= |b|
  {
    assert b == a + (b - a);
  }

  /** The entry of `node` survives the event: it is neither forgotten nor dropped after an hour offline. */
  predicate Stays(m: Entries, e: Event, node: string) {
    && node in m && e.op != Op.Forget(node)
    && (e.op.Begin? ==> Recent(m[node], e.at))
  }

  ghost predicate StaysThrough(events: seq<Event>, i: nat, k: nat, node: string)
    requires i <= k <= |events|
  {
    forall n: nat | i <= n < k :: Stays(After(events[..n]), events[n], node)
  }

  /** The event speaks for a session of `node` older than `session`. */
  predicate Outdated(op: Op, node: string, session: nat) {
    (op.Record? || op.Finish?) && op.node == node && op.session < session
  }

  /** While its entry survives a node's session only rises, and whoever speaks for an overtaken one is not heard. */
  lemma {:induction false} SessionsOnlyRise(events: seq<Event>, i: nat, k: nat, node: string)
    requires i <= k <= |events| && node in After(events[..i]) && StaysThrough(events, i, k, node)
    ensures node in After(events[..k]) && After(events[..i])[node].session <= After(events[..k])[node].session
    ensures k < |events| && Outdated(events[k].op, node, After(events[..i])[node].session) ==>
              After(events[..k + 1]) == After(events[..k])
    decreases k - i
  {
    hide Run, After, Stays;
    if i < k {
      SessionsOnlyRise(events, i, k - 1, node);
      assert Stays(After(events[..k - 1]), events[k - 1], node);
      assert events[..k - 1] + [events[k - 1]] == events[..k];
      AfterSnoc(events[..k - 1], events[k - 1]);
      SessionKept(After(events[..k - 1]), events[k - 1], node);
    }
    if k < |events| && Outdated(events[k].op, node, After(events[..i])[node].session) {
      assert events[..k] + [events[k]] == events[..k + 1];
      AfterSnoc(events[..k], events[k]);
      OutdatedUnheard(After(events[..k]), events[k], node);
    }
  }

  lemma OutdatedUnheard(m: Entries, e: Event, node: string)
    requires node in m && Outdated(e.op, node, m[node].session)
    ensures Run(m, e.at, e.op) == m
  {
  }

  /** The entry is there and goes: the node is forgotten, or a beginning finds it offline for an hour. */
  predicate Dropped(m: Entries, e: Event, node: string) {
    node in m && (e.op == Op.Forget(node) || (e.op.Begin? && !m[node].online && e.at >= m[node].touched + 3600))
  }

  ghost predicate DroppedBetween(events: seq<Event>, i: nat, k: nat, node: string)
    requires i <= k <= |events|
  {
    exists n: nat :: i <= n < k && Dropped(After(events[..n]), events[n], node)
  }

  /** A node's session falls in no other way than by its entry going in between. */
  lemma {:induction false} FallsOnlyWhenDropped(events: seq<Event>, i: nat, k: nat, node: string)
    requires i <= k <= |events| && node in After(events[..i]) && node in After(events[..k])
    ensures After(events[..k])[node].session < After(events[..i])[node].session ==> DroppedBetween(events, i, k, node)
  {
    if !DroppedBetween(events, i, k, node) {
      hide Run, After;
      StaysUnlessDropped(events, i, k, node);
      SessionsOnlyRise(events, i, k, node);
    }
  }

  lemma {:induction false} StaysUnlessDropped(events: seq<Event>, i: nat, k: nat, node: string)
    requires i <= k <= |events| && node in After(events[..i])
    requires forall n: nat | i <= n < k :: !Dropped(After(events[..n]), events[n], node)
    ensures StaysThrough(events, i, k, node)
    decreases k - i
  {
    hide Run, After;
    if i < k {
      StaysUnlessDropped(events, i, k - 1, node);
      SessionsOnlyRise(events, i, k - 1, node);
      assert Stays(After(events[..k - 1]), events[k - 1], node);
    }
  }

  lemma TakesOverIff(m: Entries, at: nat, node: string, session: nat, held: nat)
    requires node in Run(m, at, Op.Begin(node, session)) && 0 < session < held && (node in m ==> held <= m[node].session)
    ensures Run(m, at, Op.Begin(node, session))[node].session == session <==> !(node in m && Recent(m[node], at))
  {
  }

  /**
   * When a session older than any the node held begins and there is room for it: it takes over exactly when
   * the entry is gone by then, forgotten or dropped, or has been offline for an hour.
   */
  lemma OlderTakesOverIff(events: seq<Event>, k: nat, node: string, session: nat, held: nat)
    requires k < |events| && events[k].op == Op.Begin(node, session) && node in After(events[..k + 1])
    requires 0 < session < held && (node in After(events[..k]) ==> held <= After(events[..k])[node].session)
    ensures After(events[..k + 1])[node].session == session
            <==> !(node in After(events[..k])
                   && (After(events[..k])[node].online || events[k].at < After(events[..k])[node].touched + 3600))
  {
    assert events[..k] + [events[k]] == events[..k + 1];
    hide Run, After;
    AfterSnoc(events[..k], events[k]);
    TakesOverIff(After(events[..k]), events[k].at, node, session, held);
  }

  /** A node that was forgotten may come back under an older session at once. */
  lemma ForgottenSessionReturns(node: string)
    ensures var events := [Event(0, Op.Begin(node, 2)), Event(0, Op.Forget(node)), Event(0, Op.Begin(node, 1))];
            node in After(events) && After(events)[node].session == 1 && After(events)[node].online
  {
    var a, b, c := Event(0, Op.Begin(node, 2)), Event(0, Op.Forget(node)), Event(0, Op.Begin(node, 1));
    AfterSnoc([], a);
    AfterSnoc([a], b);
    AfterSnoc([a, b], c);
    assert [] + [a] == [a] && [a] + [b] == [a, b] && [a, b] + [c] == [a, b, c];
    assert After([a])[node] == BLANK.(session := 2, online := true);
    assert After([a, b]) == map[];
  }

  lemma SessionKept(m: Entries, e: Event, node: string)
    requires Stays(m, e, node)
    ensures node in Run(m, e.at, e.op) && m[node].session <= Run(m, e.at, e.op)[node].session
  {
  }

  /** An overtaken session can come back once the entry was dropped: after an hour offline it starts anew. */
  lemma OvertakenSessionReturns(node: string)
    ensures var events := [Event(0, Op.Begin(node, 2)), Event(0, Op.Finish(node, 2)), Event(OFFLINE_SECS, Op.Begin(node, 1))];
            node in After(events) && After(events)[node].session == 1 && After(events)[node].online
  {
    var a, b, c := Event(0, Op.Begin(node, 2)), Event(0, Op.Finish(node, 2)), Event(OFFLINE_SECS, Op.Begin(node, 1));
    AfterSnoc([], a);
    AfterSnoc([a], b);
    AfterSnoc([a, b], c);
    assert [] + [a] == [a] && [a] + [b] == [a, b] && [a, b] + [c] == [a, b, c];
    assert After([a])[node] == BLANK.(session := 2, online := true);
    assert After([a, b])[node] == BLANK.(session := 2, online := false);
    assert !Recent(After([a, b])[node], OFFLINE_SECS);
    assert After([a, b]).Keys == {node};
    assert Retained(After([a, b]), OFFLINE_SECS) == map[];
  }

  lemma AfterSnoc(events: seq<Event>, e: Event)
    ensures After(events + [e]) == Run(After(events), e.at, e.op)
  {
    assert (events + [e])[..|events|] == events;
  }

  // ---- as it is written -------------------------------------------------------------------------------------------

  /**
   * `t` is `m` after a session began: entries offline for an hour are gone, other nodes' are untouched, and
   * the node is present, under the newer of its sessions, unless there was no room for it.
   */
  ghost predicate Welcomes(m: Entries, at: nat, node: string, session: nat, t: Entries) {
    var known := node in m && (m[node].online || at < m[node].touched + 3600);
    && (forall n | n != node :: n in t <==> n in m && (m[n].online || at < m[n].touched + 3600))
    && (forall n | n in t && n != node :: t[n] == m[n])
    && (known ==> node in t)
    && (node !in t ==> |t| == 4096)
    && (node in t ==>
          var blank := Entry(0, false, false, at, None, None,
                             Status(Disabled, Idle, None, 0, 0, None, None, None, Some(NotEnrolled)));
          var e, was := t[node], if known then m[node] else blank;
          && (session <= was.session ==> e == was)
          && (session > was.session ==>
                && e.session == session && e.online && !e.reported && e.touched == at
                && e.status == was.status && e.request == was.request && e.requested == was.requested))
  }

  lemma BegunKeeps(m: Entries, at: nat, node: string, session: nat)
    requires |Retained(m, at)| <= CAPACITY
    ensures Welcomes(m, at, node, session, Begun(m, at, node, session))
  {
    var kept := Retained(m, at);
    assert forall n :: n in kept <==> n in m && Recent(m[n], at);
    assert forall n | n in kept :: kept[n] == m[n];
    hide Retained;
  }

  lemma SameRetained(m: Entries, at: nat, t: Entries)
    requires t == map n | n in m && (m[n].online || at < m[n].touched + OFFLINE_SECS) :: m[n]
    ensures t == Retained(m, at)
  {
  }

  class AgentUpdates {
    var entries: Entries
    /** Every call so far. */
    ghost var events: seq<Event>

    /** The entries are the outcome of the calls, so the theorems above are about this object. */
    ghost predicate Valid()
      reads this
    {
      entries == After(events)
    }

    constructor ()
      ensures Valid() && entries == map[] && events == []
    {
      entries := map[];
      events := [];
    }

    /** A session that is not newer than the known one, or has no room, changes nothing. */
    method Begin(at: nat, node: string, session: nat)
      requires Valid()
      modifies this
      ensures Valid() && events == old(events) + [Event(at, Op.Begin(node, session))] && |entries| <= CAPACITY
      ensures Welcomes(old(entries), at, node, session, entries)
    {
      hide After, Welcomes, Recent;
      ghost var m := entries;
      AfterSnoc(events, Event(at, Op.Begin(node, session)));
      CapacityHolds(events);
      RetainedFits(m, at);
      BegunFits(m, at, node, session);
      BegunKeeps(m, at, node, session);
      events := events + [Event(at, Op.Begin(node, session))];
      entries := map n | n in entries && (entries[n].online || at < entries[n].touched + OFFLINE_SECS) :: entries[n];
      SameRetained(m, at, entries);
      hide Retained;
      if node !in entries && |entries| >= CAPACITY {
        return;
      }
      var e := if node in entries then entries[node] else BLANK.(touched := at);
      if session > e.session {
        e := e.(session := session);
        e := e.(online := true);
        e := e.(reported := false);
        e := e.(touched := at);
      }
      entries := entries[node := e];
    }

    method Finish(at: nat, node: string, session: nat)
      requires Valid()
      modifies this
      ensures Valid() && events == old(events) + [Event(at, Op.Finish(node, session))]
      ensures Current(old(entries), node, session) ==>
                entries == old(entries)[node := old(entries)[node].(online := false, touched := at)]
      ensures !Current(old(entries), node, session) ==> entries == old(entries)
    {
      AfterSnoc(events, Event(at, Op.Finish(node, session)));
      events := events + [Event(at, Op.Finish(node, session))];
      if node in entries && entries[node].session == session {
        entries := entries[node := entries[node].(online := false, touched := at)];
      }
    }

    /**
     * Only the current online session is heard. A report about another request leaves phase, request and
     * sequences alone, except that an agent in manual recovery says so; it can never claim a commit.
     */
    method Record(at: nat, node: string, session: nat, status: Status)
      requires Valid()
      modifies this
      ensures Valid() && events == old(events) + [Event(at, Op.Record(node, session, status))]
      ensures !(node in old(entries) && old(entries)[node].session == session && old(entries)[node].online) ==>
                entries == old(entries)
      ensures node in old(entries) && old(entries)[node].session == session && old(entries)[node].online ==>
                && entries.Keys == old(entries).Keys
                && (forall n | n in entries && n != node :: entries[n] == old(entries)[n])
                && var e, was := entries[node], old(entries)[node];
                   && e == was.(reported := true, touched := at, status := e.status)
                   && (was.request.None? || status.requestId == Some(was.request.value.id) ==> e.status == status)
                   && (was.request.Some? && status.requestId != Some(was.request.value.id) ==>
                         && e.status.capability == status.capability
                         && e.status.phase == (if status.capability == RecoveryNeeded then UpdatePhase.ManualRecovery
                                               else was.status.phase)
                         && e.status.reason == (if status.capability == Ready then was.status.reason else status.reason)
                         && e.status == was.status.(capability := e.status.capability, phase := e.status.phase,
                                                    reason := e.status.reason))
    {
      AfterSnoc(events, Event(at, Op.Record(node, session, status)));
      events := events + [Event(at, Op.Record(node, session, status))];
      if node in entries && entries[node].session == session && entries[node].online {
        var e := entries[node].(reported := true, touched := at);
        if e.request.None? || status.requestId == Some(e.request.value.id) {
          e := e.(status := status);
        } else {
          e := e.(status := e.status.(capability := status.capability));
          if status.capability == RecoveryNeeded {
            e := e.(status := e.status.(phase := UpdatePhase.ManualRecovery));
          }
          if status.capability != Ready {
            e := e.(status := e.status.(reason := status.reason));
          }
        }
        entries := entries[node := e];
      }
    }

    /**
     * Granted exactly when the view called the node ready at that second; then the request is queued,
     * and otherwise at most an expired request is given up.
     */
    method Reserve(at: nat, node: string, request: Request) returns (refused: Option<Error>)
      requires Valid()
      modifies this
      ensures Valid() && events == old(events) + [Event(at, Op.Reserve(node, request))]
      ensures refused == if node !in old(entries) then Some(NotAvailable)
                         else
                           var was := old(entries)[node];
                           var expired := was.status.phase == Queued && was.request.Some?
                                          && was.request.value.expiresAt <= request.issuedAt;
                           if !was.online || !was.reported || was.status.capability != Ready then Some(NotAvailable)
                           else if was.status.phase in {Queued, Downloading, UpdatePhase.Prepared, UpdatePhase.Stopping,
                                                        UpdatePhase.Trial, RollingBack} && !expired then Some(Error.Pending)
                           else if was.requested.Some? && at < was.requested.value + 300 then Some(Error.RateLimited)
                           else if request.issuedAt < was.status.nextRequestAt then Some(Error.RateLimited)
                           else None
      ensures refused.None? <==> ViewOf(old(entries), node, request.issuedAt, at).ready
      ensures entries.Keys == old(entries).Keys && forall n | n in entries && n != node :: entries[n] == old(entries)[n]
      ensures refused.None? ==>
                var e, was := entries[node], old(entries)[node];
                && e == was.(touched := at, requested := Some(at), request := Some(request), status := e.status)
                && e.status.phase == Queued && e.status.requestId == Some(request.id)
                && e.status.updatedAt == request.issuedAt && e.status.reason == None
                && !ViewOf(entries, node, request.issuedAt, at).ready
      ensures refused.Some? && node in entries ==>
                && ViewOf(entries, node, request.issuedAt, at) == ViewOf(old(entries), node, request.issuedAt, at)
                && entries[node] == old(entries)[node].(status := entries[node].status)
    {
      AfterSnoc(events, Event(at, Op.Reserve(node, request)));
      events := events + [Event(at, Op.Reserve(node, request))];
      if node !in entries {
        return Some(NotAvailable);
      }
      var e := entries[node];
      if e.status.phase == Queued && e.request.Some? && e.request.value.expiresAt <= request.issuedAt {
        e := e.(status := e.status.(phase := Unknown, reason := Some(RequestExpired)));
        entries := entries[node := e];
      }
      assert entries == old(entries)[node := Lapsed(old(entries)[node], request.issuedAt)];
      if !e.online || !e.reported || e.status.capability != Ready {
        return Some(NotAvailable);
      }
      if InProgress(e.status.phase) {
        return Some(Error.Pending);
      }
      if (e.requested.Some? && at < e.requested.value + UPDATE_COOLDOWN_SECS) || request.issuedAt < e.status.nextRequestAt {
        return Some(Error.RateLimited);
      }
      e := e.(requested := Some(at), touched := at);
      e := e.(status := e.status.(phase := Queued));
      e := e.(status := e.status.(requestId := Some(request.id)));
      e := e.(status := e.status.(updatedAt := request.issuedAt));
      e := e.(status := e.status.(reason := None));
      e := e.(request := Some(request));
      entries := entries[node := e];
      refused := None;
    }

    method DeliveryFailed(at: nat, node: string, id: string)
      requires Valid()
      modifies this
      ensures Valid() && events == old(events) + [Event(at, Op.DeliveryFailed(node, id))]
      ensures entries.Keys == old(entries).Keys && forall n | n in entries && n != node :: entries[n] == old(entries)[n]
      ensures node in entries && old(entries)[node].status.requestId == Some(id) ==>
                var was := old(entries)[node];
                entries[node] == was.(status := was.status.(phase := UpdatePhase.Failed, reason := Some(UpdateFailed)))
      ensures node in entries && old(entries)[node].status.requestId != Some(id) ==> entries == old(entries)
    {
      AfterSnoc(events, Event(at, Op.DeliveryFailed(node, id)));
      events := events + [Event(at, Op.DeliveryFailed(node, id))];
      if node in entries && entries[node].status.requestId == Some(id) {
        var e := entries[node];
        e := e.(status := e.status.(phase := UpdatePhase.Failed));
        e := e.(status := e.status.(reason := Some(UpdateFailed)));
        entries := entries[node := e];
      }
    }

    method Forget(at: nat, node: string)
      requires Valid()
      modifies this
      ensures Valid() && events == old(events) + [Event(at, Op.Forget(node))] && entries == old(entries) - {node}
    {
      AfterSnoc(events, Event(at, Op.Forget(node)));
      events := events + [Event(at, Op.Forget(node))];
      entries := entries - {node};
    }

    /**
     * `view`. What it shows as committed was reported committed, about that very request, by the session
     * the node then had; what it calls ready was reported by the session it has.
     */
    method Look(node: string, now: nat, at: nat) returns (v: View)
      requires Valid()
      ensures v == ViewOf(entries, node, now, at)
      ensures node !in entries ==>
                v == View(Status(Disabled, Idle, None, 0, 0, None, None, None, Some(NotEnrolled)), false, false)
      ensures node in entries ==>
                var e := entries[node];
                var expired := e.status.phase == Queued && e.request.Some? && e.request.value.expiresAt <= now;
                && v.reported == e.reported
                && v.status == e.status.(capability := if e.reported then e.status.capability else Disabled,
                                         phase := if expired then Unknown else e.status.phase,
                                         reason := if expired then Some(RequestExpired) else e.status.reason)
                && (v.ready <==>
                      && e.online && e.reported && e.status.capability == Ready
                      && (e.requested.None? || at >= e.requested.value + 300) && now >= e.status.nextRequestAt
                      && (expired || e.status.phase !in {Queued, Downloading, UpdatePhase.Prepared, UpdatePhase.Stopping,
                                                         UpdatePhase.Trial, RollingBack}))
      ensures v.status.phase == UpdatePhase.Committed && node in entries && entries[node].request.Some? ==>
                Confirmed(events, |events|, node, entries[node].request.value)
      ensures v.ready ==> exists k: nat :: k < |events| && HeardAt(events, k, node, entries[node].session)
    {
      Truthful(node, now, at);
      if node !in entries {
        return View(Unavailable(Disabled, NotEnrolled), false, false);
      }
      var e := entries[node];
      var status := e.status;
      if status.phase == Queued && e.request.Some? && e.request.value.expiresAt <= now {
        status := status.(phase := Unknown, reason := Some(RequestExpired));
      }
      if !e.reported {
        status := status.(capability := Disabled);
      }
      var cooldown := e.requested.None? || at >= e.requested.value + UPDATE_COOLDOWN_SECS;
      var ready := e.online && e.reported && cooldown && status.capability == Ready
                   && now >= status.nextRequestAt && !InProgress(status.phase);
      v := View(status, ready, e.reported);
    }

    lemma Truthful(node: string, now: nat, at: nat)
      requires Valid()
      ensures var v := ViewOf(entries, node, now, at);
              && (v.status.phase == UpdatePhase.Committed && node in entries && entries[node].request.Some? ==>
                    Confirmed(events, |events|, node, entries[node].request.value))
              && (v.ready ==> exists k: nat :: k < |events| && HeardAt(events, k, node, entries[node].session))
    {
      var v := ViewOf(entries, node, now, at);
      if v.status.phase == UpdatePhase.Committed && node in entries && entries[node].request.Some? {
        CommittedOnlyWhenReported(events, node, now, at, entries[node].request.value);
      }
      if v.ready {
        assert events[..|events|] == events;
        ReadyOnlyWhenReported(events, |events|, node);
      }
    }
  }
}
