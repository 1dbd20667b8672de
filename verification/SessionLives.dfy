/**
 * How long a login lives, told from the calls and their replies alone: over any history of the store, a
 * pending login can be exchanged for 300 seconds after it was begun, a session lasts 24 hours, a spent step
 * stays spent for 150 seconds.
 */
module SessionLives {
  import opened Options
  import opened Sessions

  // ---- what the calls and replies tell -----------------------------------------------------------------

  /** Times do not go back, and each call was answered. */
  predicate Record(es: seq<Event>, r: seq<Reply>) {
    |r| == |es| && forall i, k | 0 <= i < k < |es| :: es[i].now <= es[k].now
  }

  /** The call ends the pending login: a session was issued for it, or it failed for the last time. */
  predicate EndsLogin(op: Op, q: Reply, token: string) {
    || op.ClearAll?
    || ((op.Exchange? || op.ExchangePasskey?) && op.pending == token && q.Token?)
    || (op == RecordFailure(token) && q == Flag(true))
  }

  /** When the login that waits under `token` was begun, if one does. */
  function Begun(es: seq<Event>, r: seq<Reply>, token: string): Option<nat>
    requires |r| == |es|
    decreases |es|
  {
    if es == [] then None
    else
      var n := |es| - 1;
      if es[n].op.CreatePending? && es[n].op.token == token then Some(es[n].now)
      else if EndsLogin(es[n].op, r[n], token) then None
      else Begun(es[..n], r[..n], token)
  }

  /** Failures of the login since it was begun. */
  function Failures(es: seq<Event>, token: string): nat
    decreases |es|
  {
    if es == [] then 0
    else
      var n := |es| - 1;
      if es[n].op.CreatePending? && es[n].op.token == token then 0
      else Failures(es[..n], token) + (if es[n].op == RecordFailure(token) then 1 else 0)
  }

  /** Logins begun in the 300 seconds before `now`, ended or not. */
  function LoginsBegun(es: seq<Event>, now: nat): nat
    decreases |es|
  {
    if es == [] then 0
    else
      var n := |es| - 1;
      LoginsBegun(es[..n], now) + (if es[n].op.CreatePending? && now < es[n].now + 300 * 1000 then 1 else 0)
  }

  /** Never the victim when 256 logins had been begun in the last 300 seconds. */
  predicate Spared(es: seq<Event>, token: string) {
    forall i | 0 <= i < |es| && es[i].op.CreatePending? && es[i].op.victim == token :: LoginsBegun(es[..i], es[i].now) < 256
  }

  /** The call issued a session. */
  predicate Issues(op: Op, q: Reply) {
    q.Token? && (op.CreateAuthenticated? || op.CreateBasic? || op.Exchange? || op.ExchangePasskey?)
  }

  /** When the session `token` was issued, if it was not ended since. */
  function Issued(es: seq<Event>, r: seq<Reply>, token: string): Option<nat>
    requires |r| == |es|
    decreases |es|
  {
    if es == [] then None
    else
      var n := |es| - 1;
      if Issues(es[n].op, r[n]) && !es[n].op.CreateBasic? && es[n].op.token == token then Some(es[n].now)
      else if es[n].op.ClearAll? || es[n].op == RemoveAuthenticated(token) then None
      else Issued(es[..n], r[..n], token)
  }

  /** When `step` was last spent. */
  function Spent(es: seq<Event>, r: seq<Reply>, step: nat): Option<nat>
    requires |r| == |es|
    decreases |es|
  {
    if es == [] then None
    else
      var n := |es| - 1;
      if Succeeds(es[n].op, r[n]) && step in StepsOf(es[n].op) then Some(es[n].now)
      else Spent(es[..n], r[..n], step)
  }

  /** Sessions issued in the 24 hours before `now`, ended or not. */
  function Recent(es: seq<Event>, r: seq<Reply>, now: nat): nat
    requires |r| == |es|
    decreases |es|
  {
    if es == [] then 0
    else
      var n := |es| - 1;
      Recent(es[..n], r[..n], now) + (if Issues(es[n].op, r[n]) && now < es[n].now + 24 * 3600 * 1000 then 1 else 0)
  }

  /** Less than `span` has passed since. */
  predicate Within(since: Option<nat>, now: nat, span: nat) {
    since.Some? && now < since.value + span
  }

  /** One of the steps was not spent in the last 150 seconds. */
  ghost predicate Usable(es: seq<Event>, r: seq<Reply>, steps: seq<nat>, now: nat)
    requires |r| == |es|
  {
    exists i :: 0 <= i < |steps| && !Within(Spent(es, r, steps[i]), now, 150 * 1000)
  }

  // ---- the store keeps to it ---------------------------------------------------------------------------

  predicate LoginTold(l: Logins, es: seq<Event>, r: seq<Reply>, last: nat, token: string)
    requires |r| == |es|
  {
    && (token in l.pending ==>
          Begun(es, r, token).Some? && Failures(es, token) < MAX_FAILED_ATTEMPTS
          && l.pending[token] == Pending(Begun(es, r, token).value + PENDING_MS, Failures(es, token)))
    && (Within(Begun(es, r, token), last, PENDING_MS) && Spared(es, token) ==> token in l.pending)
  }

  ghost predicate LoginsTold(l: Logins, es: seq<Event>, r: seq<Reply>, last: nat)
    requires |r| == |es|
  {
    forall token: string :: LoginTold(l, es, r, last, token)
  }

  predicate SessionTold(l: Logins, es: seq<Event>, r: seq<Reply>, last: nat, token: string)
    requires |r| == |es|
  {
    && (token in l.authenticated ==>
          Issued(es, r, token).Some? && l.authenticated[token] == Issued(es, r, token).value + AUTH_MS)
    && (Within(Issued(es, r, token), last, AUTH_MS) ==> token in l.authenticated)
  }

  ghost predicate SessionsTold(l: Logins, es: seq<Event>, r: seq<Reply>, last: nat)
    requires |r| == |es|
  {
    forall token: string :: SessionTold(l, es, r, last, token)
  }

  ghost predicate StepsTold(used: map<nat, nat>, es: seq<Event>, r: seq<Reply>, last: nat)
    requires |r| == |es|
  {
    && (forall u | u in used :: Spent(es, r, u).Some? && used[u] == Spent(es, r, u).value + RETENTION_MS)
    && (forall u: nat :: Within(Spent(es, r, u), last, RETENTION_MS) ==> u in used)
  }

  function Alive(l: Logins, now: nat): nat {
    |Live(l.authenticated, now)| + |Live(l.basic, now)|
  }

  function Deadlines(pending: map<string, Pending>): map<string, nat> {
    map t | t in pending :: pending[t].expiresAt
  }

  function Waiting(l: Logins, now: nat): nat {
    |Live(Deadlines(l.pending), now)|
  }

  ghost predicate RoomTold(l: Logins, es: seq<Event>, r: seq<Reply>, last: nat)
    requires |r| == |es|
  {
    forall now: nat | now >= last :: Alive(l, now) <= Recent(es, r, now) && Waiting(l, now) <= LoginsBegun(es, now)
  }

  ghost predicate Told(s: Store, es: seq<Event>, r: seq<Reply>, last: nat) {
    && Record(es, r) && (es != [] ==> es[|es| - 1].now <= last)
    && LoginsTold(s.logins, es, r, last) && SessionsTold(s.logins, es, r, last)
    && StepsTold(s.used, es, r, last) && RoomTold(s.logins, es, r, last)
  }

  /** A store just pruned. */
  predicate Fresh(s: Store, now: nat) {
    && (forall t | t in s.logins.pending :: s.logins.pending[t].expiresAt > now)
    && (forall t | t in s.logins.authenticated :: s.logins.authenticated[t] > now)
    && (forall t | t in s.logins.basic :: s.logins.basic[t] > now)
    && (forall u | u in s.used :: s.used[u] > now)
  }

  lemma PruneFresh(s: Store, now: nat)
    ensures Fresh(Prune(s, now, false), now)
  {
  }

  /** What expires is no longer counted on. */
  lemma PruneTold(s: Store, es: seq<Event>, r: seq<Reply>, last: nat, now: nat)
    requires Told(s, es, r, last) && last <= now
    ensures Told(s, es, r, now) && Told(Prune(s, now, false), es, r, now)
  {
    assert |r| == |es|;
    hide Begun, Issued, Spent, Recent, Record, Spared, Failures, Prune, Alive;
    var p := Prune(s, now, false);
    PruneKeeps(s, now);
    forall token: string ensures LoginTold(s.logins, es, r, now, token) && LoginTold(p.logins, es, r, now, token) {
      assert LoginTold(s.logins, es, r, last, token);
    }
    forall token: string ensures SessionTold(s.logins, es, r, now, token) && SessionTold(p.logins, es, r, now, token) {
      assert SessionTold(s.logins, es, r, last, token);
    }
    forall later: nat | later >= now
      ensures Alive(p.logins, later) == Alive(s.logins, later) && Waiting(p.logins, later) == Waiting(s.logins, later)
    {
      PruneAlive(s, now, later);
    }
  }

  lemma PruneAlive(s: Store, now: nat, later: nat)
    requires now <= later
    ensures var l := Prune(s, now, false).logins;
            Alive(l, later) == Alive(s.logins, later) && Waiting(l, later) == Waiting(s.logins, later)
  {
    var p := Prune(s, now, false);
    assert Live(p.logins.authenticated, later) == Live(s.logins.authenticated, later);
    assert Live(p.logins.basic, later) == Live(s.logins.basic, later);
    assert Live(Deadlines(p.logins.pending), later) == Live(Deadlines(s.logins.pending), later);
  }

  lemma PruneKeeps(s: Store, now: nat)
    ensures var p := Prune(s, now, false);
            && (forall t :: t in p.logins.pending <==> t in s.logins.pending && s.logins.pending[t].expiresAt > now)
            && (forall t | t in p.logins.pending :: p.logins.pending[t] == s.logins.pending[t])
            && (forall t :: t in p.logins.authenticated <==> t in s.logins.authenticated && s.logins.authenticated[t] > now)
            && (forall t | t in p.logins.authenticated :: p.logins.authenticated[t] == s.logins.authenticated[t])
            && (forall u :: u in p.used <==> u in s.used && s.used[u] > now)
            && (forall u | u in p.used :: p.used[u] == s.used[u])
  {
  }

  lemma Last(es: seq<Event>, r: seq<Reply>, e: Event, q: Reply)
    requires |r| == |es|
    ensures (es + [e])[..|es|] == es && (r + [q])[..|es|] == r
    ensures (es + [e])[|es|] == e && (r + [q])[|es|] == q && |es + [e]| == |es| + 1 == |r + [q]|
  {
  }

  lemma BegunNext(es: seq<Event>, r: seq<Reply>, e: Event, q: Reply, token: string)
    requires |r| == |es|
    ensures var begins := e.op.CreatePending? && e.op.token == token;
            && Begun(es + [e], r + [q], token)
               == (if begins then Some(e.now) else if EndsLogin(e.op, q, token) then None else Begun(es, r, token))
            && Failures(es + [e], token)
               == (if begins then 0 else Failures(es, token) + (if e.op == RecordFailure(token) then 1 else 0))
  {
    Last(es, r, e, q);
  }

  lemma PendingCreated(l: Logins, now: nat, op: Op, token: string)
    requires op.CreatePending?
    ensures var next := Act(l, now, op, false).0;
            && (op.token == token ==> token in next.pending && next.pending[token] == Pending(now + PENDING_MS, 0))
            && (op.token != token ==>
                  && (token in next.pending ==> token in l.pending && next.pending[token] == l.pending[token])
                  && (token in l.pending && (op.victim != token || |l.pending| < 256) ==> token in next.pending))
  {
  }

  lemma PendingFailed(l: Logins, now: nat, token: string)
    ensures var (next, q) := Act(l, now, RecordFailure(token), false);
            && (q == Flag(true) ==> token !in next.pending)
            && (q != Flag(true) ==>
                  token in l.pending && token in next.pending && next.pending[token].failedAttempts < MAX_FAILED_ATTEMPTS
                  && next.pending[token] == l.pending[token].(failedAttempts := l.pending[token].failedAttempts + 1))
  {
  }

  lemma PendingOtherwise(l: Logins, now: nat, op: Op, spent: bool, token: string)
    requires !op.CreatePending? && op != RecordFailure(token)
    ensures var (next, q) := Act(l, now, op, spent);
            if EndsLogin(op, q, token) then token !in next.pending
            else
              && (token in next.pending <==> token in l.pending)
              && (token in l.pending ==> next.pending[token] == l.pending[token])
  {
    hide Full;
  }

  lemma CodelessAct(l: Logins, now: nat, op: Op, spent: bool)
    requires op.CreatePending? || op.RecordFailure?
    ensures Act(l, now, op, spent) == Act(l, now, op, false)
  {
    hide Full;
  }

  /** One pending login after one more call. */
  lemma LoginGoesOn(l: Logins, es: seq<Event>, r: seq<Reply>, e: Event, spent: bool, token: string)
    requires |r| == |es| && LoginTold(l, es, r, e.now, token)
    requires e.op.CreatePending? ==> |l.pending| <= LoginsBegun(es, e.now)
    ensures var (next, q) := Act(l, e.now, e.op, spent);
            LoginTold(next, es + [e], r + [q], e.now, token)
  {
    hide Act, Begun, Failures, Spared, LoginsBegun;
    var (next, q) := Act(l, e.now, e.op, spent);
    BegunNext(es, r, e, q, token);
    if Spared(es + [e], token) {
      SparedBefore(es, e, token);
    }
    if e.op.CreatePending? {
      PendingCreated(l, e.now, e.op, token);
      assert Act(l, e.now, e.op, spent) == Act(l, e.now, e.op, false) by {
        CodelessAct(l, e.now, e.op, spent);
      }
    } else if e.op == RecordFailure(token) {
      PendingFailed(l, e.now, token);
      CodelessAct(l, e.now, e.op, spent);
    } else {
      PendingOtherwise(l, e.now, e.op, spent, token);
    }
  }

  /** The pending logins after one more call. */
  lemma LoginsGoOn(l: Logins, es: seq<Event>, r: seq<Reply>, e: Event, spent: bool)
    requires |r| == |es| && LoginsTold(l, es, r, e.now)
    requires e.op.CreatePending? ==> |l.pending| <= LoginsBegun(es, e.now)
    ensures var (next, q) := Act(l, e.now, e.op, spent);
            LoginsTold(next, es + [e], r + [q], e.now)
  {
    hide Act, LoginTold;
    var (next, q) := Act(l, e.now, e.op, spent);
    forall token: string ensures LoginTold(next, es + [e], r + [q], e.now, token) {
      assert LoginTold(l, es, r, e.now, token);
      LoginGoesOn(l, es, r, e, spent, token);
    }
  }

  lemma SparedBefore(es: seq<Event>, e: Event, token: string)
    requires Spared(es + [e], token)
    ensures Spared(es, token) && (e.op.CreatePending? && e.op.victim == token ==> LoginsBegun(es, e.now) < 256)
  {
    var all := es + [e];
    assert all[|es|] == e && all[..|es|] == es;
    forall i | 0 <= i < |es| && es[i].op.CreatePending? && es[i].op.victim == token
      ensures LoginsBegun(es[..i], es[i].now) < 256
    {
      assert all[i] == es[i] && all[..i] == es[..i];
    }
  }

  lemma IssuedNext(es: seq<Event>, r: seq<Reply>, e: Event, q: Reply, token: string)
    requires |r| == |es|
    ensures Issued(es + [e], r + [q], token)
            == if Issues(e.op, q) && !e.op.CreateBasic? && e.op.token == token then Some(e.now)
               else if e.op.ClearAll? || e.op == RemoveAuthenticated(token) then None
               else Issued(es, r, token)
  {
    Last(es, r, e, q);
  }

  /** What one call does to one session. */
  lemma SessionNext(l: Logins, now: nat, op: Op, spent: bool, token: string)
    ensures var (next, q) := Act(l, now, op, spent);
            if Issues(op, q) && !op.CreateBasic? && op.token == token then
              token in next.authenticated && next.authenticated[token] == now + AUTH_MS
            else if op.ClearAll? || op == RemoveAuthenticated(token) then token !in next.authenticated
            else
              && (token in next.authenticated <==> token in l.authenticated)
              && (token in l.authenticated ==> next.authenticated[token] == l.authenticated[token])
  {
    hide Full;
  }

  lemma SessionGoesOn(l: Logins, es: seq<Event>, r: seq<Reply>, e: Event, spent: bool, token: string)
    requires |r| == |es| && SessionTold(l, es, r, e.now, token)
    ensures var (next, q) := Act(l, e.now, e.op, spent);
            SessionTold(next, es + [e], r + [q], e.now, token)
  {
    hide Act, Issued;
    var (next, q) := Act(l, e.now, e.op, spent);
    IssuedNext(es, r, e, q, token);
    SessionNext(l, e.now, e.op, spent, token);
  }

  lemma SessionsGoOn(l: Logins, es: seq<Event>, r: seq<Reply>, e: Event, spent: bool)
    requires |r| == |es| && SessionsTold(l, es, r, e.now)
    ensures var (next, q) := Act(l, e.now, e.op, spent);
            SessionsTold(next, es + [e], r + [q], e.now)
  {
    hide Act, SessionTold;
    var (next, q) := Act(l, e.now, e.op, spent);
    forall token: string ensures SessionTold(next, es + [e], r + [q], e.now, token) {
      assert SessionTold(l, es, r, e.now, token);
      SessionGoesOn(l, es, r, e, spent, token);
    }
  }

  lemma StepsGoOn(used: map<nat, nat>, es: seq<Event>, r: seq<Reply>, e: Event, q: Reply)
    requires |r| == |es| && StepsTold(used, es, r, e.now)
    ensures StepsTold(if Succeeds(e.op, q) then Mark(used, StepsOf(e.op), e.now + RETENTION_MS) else used,
                      es + [e], r + [q], e.now)
  {
    Last(es, r, e, q);
    hide Succeeds, StepsOf;
  }

  lemma LiveGrows(m: map<string, nat>, token: string, until: nat, now: nat)
    ensures |Live(m[token := until], now)| <= |Live(m, now)| + (if now < until then 1 else 0)
  {
    var grown := Live(m[token := until], now);
    if now < until {
      assert grown.Keys == Live(m, now).Keys + {token};
      assert |grown.Keys| <= |Live(m, now).Keys| + 1;
      assert |grown| == |grown.Keys| && |Live(m, now)| == |Live(m, now).Keys|;
    } else {
      FewerKeys(grown, Live(m, now));
    }
  }

  lemma LiveShrinks(m: map<string, nat>, token: string, now: nat)
    ensures |Live(m - {token}, now)| <= |Live(m, now)|
  {
    FewerKeys(Live(m - {token}, now), Live(m, now));
  }

  predicate Opens(op: Op) {
    op.CreateAuthenticated? || op.CreateBasic? || op.Exchange? || op.ExchangePasskey?
  }

  lemma OpenedAlive(l: Logins, e: Event, spent: bool, now: nat)
    requires Opens(e.op)
    ensures var (next, q) := Act(l, e.now, e.op, spent);
            Alive(next, now) <= Alive(l, now) + (if q.Token? && now < e.now + AUTH_MS then 1 else 0)
  {
    hide Live, Full;
    var until := e.now + AUTH_MS;
    LiveGrows(if e.op.CreateBasic? then l.basic else l.authenticated, e.op.token, until, now);
  }

  lemma OthersAlive(l: Logins, e: Event, spent: bool, now: nat)
    requires !Opens(e.op)
    ensures Alive(Act(l, e.now, e.op, spent).0, now) <= Alive(l, now)
  {
    hide Live;
    if e.op.RemoveAuthenticated? {
      LiveShrinks(l.authenticated, e.op.token, now);
    } else if e.op.RemoveBasic? {
      LiveShrinks(l.basic, e.op.token, now);
    } else if e.op.ClearAll? {
      NoneLive(now);
    }
  }

  /** What one call does to the sessions. */
  lemma AliveAfter(l: Logins, e: Event, spent: bool, now: nat)
    ensures var (next, q) := Act(l, e.now, e.op, spent);
            Alive(next, now) <= Alive(l, now) + (if Issues(e.op, q) && now < e.now + AUTH_MS then 1 else 0)
  {
    hide Act, Alive;
    if Opens(e.op) {
      OpenedAlive(l, e, spent, now);
    } else {
      OthersAlive(l, e, spent, now);
    }
  }

  lemma DeadlinesNext(pending: map<string, Pending>, token: string, p: Pending)
    ensures Deadlines(pending[token := p]) == Deadlines(pending)[token := p.expiresAt]
    ensures Deadlines(pending - {token}) == Deadlines(pending) - {token}
    ensures token in pending && p.expiresAt == pending[token].expiresAt ==> Deadlines(pending[token := p]) == Deadlines(pending)
  {
  }

  lemma WaitingCreated(l: Logins, e: Event, now: nat)
    requires e.op.CreatePending?
    ensures Waiting(Act(l, e.now, e.op, false).0, now) <= Waiting(l, now) + (if now < e.now + PENDING_MS then 1 else 0)
  {
    hide Live, Deadlines, Full;
    var room := if |l.pending| >= MAX_PENDING_SESSIONS then l.pending - {e.op.victim} else l.pending;
    DeadlinesNext(l.pending, e.op.victim, Pending(0, 0));
    DeadlinesNext(room, e.op.token, Pending(e.now + PENDING_MS, 0));
    LiveShrinks(Deadlines(l.pending), e.op.victim, now);
    LiveGrows(Deadlines(room), e.op.token, e.now + PENDING_MS, now);
  }

  lemma WaitingLess(l: Logins, token: string, now: nat)
    ensures Waiting(l.(pending := l.pending - {token}), now) <= Waiting(l, now)
    ensures Waiting(Logins(map[], map[], map[]), now) == 0
  {
    hide Live, Deadlines;
    DeadlinesNext(l.pending, token, Pending(0, 0));
    LiveShrinks(Deadlines(l.pending), token, now);
    NoDeadlines();
    NoneLive(now);
  }

  /** What one call does to the number of waiting logins. */
  lemma WaitingAfter(l: Logins, e: Event, spent: bool, now: nat)
    ensures Waiting(Act(l, e.now, e.op, spent).0, now)
            <= Waiting(l, now) + (if e.op.CreatePending? && now < e.now + PENDING_MS then 1 else 0)
  {
    hide Waiting, Deadlines, Full;
    if e.op.CreatePending? {
      assert Act(l, e.now, e.op, spent) == Act(l, e.now, e.op, false);
      hide Act;
      WaitingCreated(l, e, now);
    } else if e.op.RecordFailure? {
      FailureWaits(l, e, spent, now);
    } else {
      WaitingLess(l, if e.op.Exchange? || e.op.ExchangePasskey? then e.op.pending else "", now);
      SamePending(l, Act(l, e.now, e.op, spent).0, now);
    }
  }

  lemma SamePending(l: Logins, next: Logins, now: nat)
    ensures next.pending == l.pending ==> Waiting(next, now) == Waiting(l, now)
    ensures forall t :: next.pending == l.pending - {t} ==> Waiting(next, now) == Waiting(l.(pending := l.pending - {t}), now)
    ensures next.pending == map[] ==> Waiting(next, now) == Waiting(Logins(map[], map[], map[]), now)
  {
  }

  lemma FailureWaits(l: Logins, e: Event, spent: bool, now: nat)
    requires e.op.RecordFailure?
    ensures Waiting(Act(l, e.now, e.op, spent).0, now) <= Waiting(l, now)
  {
    hide Live, Deadlines, Full;
    if e.op.token in l.pending {
      DeadlinesNext(l.pending, e.op.token, l.pending[e.op.token].(failedAttempts := l.pending[e.op.token].failedAttempts + 1));
      LiveShrinks(Deadlines(l.pending), e.op.token, now);
    }
  }

  lemma NoDeadlines()
    ensures Deadlines(map[]) == map[]
  {
  }

  lemma NoneLive(now: nat)
    ensures |Live(map[], now)| == 0
  {
  }

  lemma RoomGoesOn(l: Logins, es: seq<Event>, r: seq<Reply>, e: Event, spent: bool)
    requires |r| == |es| && RoomTold(l, es, r, e.now)
    ensures var (next, q) := Act(l, e.now, e.op, spent);
            RoomTold(next, es + [e], r + [q], e.now)
  {
    var (next, q) := Act(l, e.now, e.op, spent);
    Last(es, r, e, q);
    hide Act, Alive, Waiting, Issues;
    forall now: nat | now >= e.now
      ensures Alive(next, now) <= Recent(es + [e], r + [q], now) && Waiting(next, now) <= LoginsBegun(es + [e], now)
    {
      AliveAfter(l, e, spent, now);
      WaitingAfter(l, e, spent, now);
      assert Alive(l, now) <= Recent(es, r, now) && Waiting(l, now) <= LoginsBegun(es, now);
    }
  }

  /** In a pruned store everything that is pending waits. */
  lemma WaitingTold(p: Store, es: seq<Event>, r: seq<Reply>, now: nat)
    requires |r| == |es| && RoomTold(p.logins, es, r, now) && Fresh(p, now)
    ensures |p.logins.pending| <= LoginsBegun(es, now)
  {
    assert Live(Deadlines(p.logins.pending), now).Keys == p.logins.pending.Keys;
    assert |Live(Deadlines(p.logins.pending), now).Keys| == |Live(Deadlines(p.logins.pending), now)|;
    assert |p.logins.pending.Keys| == |p.logins.pending|;
    assert Waiting(p.logins, now) <= LoginsBegun(es, now);
  }

  lemma ToldParts(p: Store, es: seq<Event>, r: seq<Reply>, now: nat)
    requires Told(p, es, r, now)
    ensures Record(es, r) && |r| == |es| && (es != [] ==> es[|es| - 1].now <= now)
    ensures LoginsTold(p.logins, es, r, now) && SessionsTold(p.logins, es, r, now)
    ensures StepsTold(p.used, es, r, now) && RoomTold(p.logins, es, r, now)
  {
  }

  lemma FinishTold(p: Store, es: seq<Event>, r: seq<Reply>, e: Event)
    requires Told(p, es, r, e.now) && (Prunes(e.op) ==> Fresh(p, e.now))
    ensures var (next, q) := Finish(p, e.now, e.op);
            Told(next, es + [e], r + [q], e.now)
  {
    hide Told, LoginsBegun, Fresh, Act, Mark, AllUsed, Succeeds, LoginsTold, SessionsTold, StepsTold, RoomTold, Record, StepsOf;
    ToldParts(p, es, r, e.now);
    if e.op.CreatePending? {
      WaitingTold(p, es, r, e.now);
    }
    var spent := AllUsed(p.used, StepsOf(e.op));
    var (l, q) := Act(p.logins, e.now, e.op, spent);
    LoginsGoOn(p.logins, es, r, e, spent);
    SessionsGoOn(p.logins, es, r, e, spent);
    RoomGoesOn(p.logins, es, r, e, spent);
    StepsGoOn(p.used, es, r, e, q);
    RecordGrows(es, r, e, q);
    TellAll(Finish(p, e.now, e.op).0, es + [e], r + [q], e.now);
  }

  lemma TellAll(s: Store, es: seq<Event>, r: seq<Reply>, now: nat)
    requires Record(es, r) && |r| == |es| && es != [] && es[|es| - 1].now <= now
    requires LoginsTold(s.logins, es, r, now) && SessionsTold(s.logins, es, r, now)
    requires StepsTold(s.used, es, r, now) && RoomTold(s.logins, es, r, now)
    ensures Told(s, es, r, now)
  {
  }

  /** One more call is told as well. */
  lemma RunTold(s: Store, es: seq<Event>, r: seq<Reply>, last: nat, e: Event)
    requires Told(s, es, r, last) && last <= e.now
    ensures var (next, q) := Run(s, e.now, e.op, false);
            Told(next, es + [e], r + [q], e.now)
  {
    hide Told, Finish, Prune, Fresh;
    PruneTold(s, es, r, last, e.now);
    PruneFresh(s, e.now);
    FinishTold(if Prunes(e.op) then Prune(s, e.now, false) else s, es, r, e);
  }

  lemma RecordGrows(es: seq<Event>, r: seq<Reply>, e: Event, q: Reply)
    requires Record(es, r) && (es != [] ==> es[|es| - 1].now <= e.now)
    ensures Record(es + [e], r + [q])
  {
    var all := es + [e];
    forall i, k | 0 <= i < k < |all| ensures all[i].now <= all[k].now {
      if k == |es| {
        assert all[i] == es[i] && es[i].now <= es[|es| - 1].now;
      }
    }
  }

  // ---- over histories ----------------------------------------------------------------------------------

  predicate Ordered(es: seq<Event>) {
    forall i, k | 0 <= i < k < |es| :: es[i].now <= es[k].now
  }

  function After(s: Store, es: seq<Event>): Store
    decreases |es|
  {
    if es == [] then s else After(Run(s, es[0].now, es[0].op, false).0, es[1..])
  }

  /** The `k`-th reply is given by the store that the calls before it left. */
  lemma {:induction false} ReplyAt(s: Store, es: seq<Event>, k: nat)
    requires k < |es|
    ensures var r := Replies(s, es, false);
            && |r| == |es| && r[..k] == Replies(s, es[..k], false)
            && r[k] == Run(After(s, es[..k]), es[k].now, es[k].op, false).1
            && After(s, es[..k + 1]) == Run(After(s, es[..k]), es[k].now, es[k].op, false).0
    decreases k
  {
    hide Run;
    RepliesLength(s, es, false);
    var next := Run(s, es[0].now, es[0].op, false).0;
    assert es[..k + 1][1..] == es[1..][..k];
    if k > 0 {
      assert es[..k][1..] == es[1..][..k - 1] && es[..k][0] == es[0];
      ReplyAt(next, es[1..], k - 1);
      var r := Replies(s, es, false);
      assert r[..k] == [r[0]] + r[1..][..k - 1];
    } else {
      assert es[..1][0] == es[0];
    }
  }

  lemma {:induction false} AlwaysTold(es: seq<Event>, k: nat)
    requires Ordered(es) && k <= |es|
    ensures |Replies(FRESH, es, false)| == |es|
    ensures Told(After(FRESH, es[..k]), es[..k], Replies(FRESH, es, false)[..k], if k == 0 then 0 else es[k - 1].now)
    decreases k
  {
    hide Run, Told;
    RepliesLength(FRESH, es, false);
    if k == 0 {
      FreshTold();
    } else {
      AlwaysTold(es, k - 1);
      ReplyAt(FRESH, es, k - 1);
      RunTold(After(FRESH, es[..k - 1]), es[..k - 1], Replies(FRESH, es, false)[..k - 1],
              if k == 1 then 0 else es[k - 2].now, es[k - 1]);
      assert es[..k - 1] + [es[k - 1]] == es[..k];
      var r := Replies(FRESH, es, false);
      assert r[..k - 1] + [r[k - 1]] == r[..k];
    }
  }

  lemma FreshTold()
    ensures Told(FRESH, [], [], 0)
  {
  }

  lemma SpentTold(p: Store, es: seq<Event>, r: seq<Reply>, steps: seq<nat>, now: nat)
    requires |r| == |es| && StepsTold(p.used, es, r, now) && Fresh(p, now)
    ensures !AllUsed(p.used, steps) <==> Usable(es, r, steps, now)
  {
    hide Spent;
    if Usable(es, r, steps, now) {
      var i :| 0 <= i < |steps| && !Within(Spent(es, r, steps[i]), now, 150 * 1000);
      assert steps[i] !in p.used;
    }
  }

  /** Every session of a pruned store was issued in the last 24 hours. */
  lemma FullTold(p: Store, es: seq<Event>, r: seq<Reply>, now: nat)
    requires |r| == |es| && RoomTold(p.logins, es, r, now) && Fresh(p, now) && Full(p.logins)
    ensures Recent(es, r, now) >= 1024
  {
    assert Live(p.logins.authenticated, now) == p.logins.authenticated && Live(p.logins.basic, now) == p.logins.basic;
    assert Alive(p.logins, now) <= Recent(es, r, now);
  }

  lemma ExchangeTold(p: Store, es: seq<Event>, r: seq<Reply>, e: Event)
    requires Told(p, es, r, e.now) && Fresh(p, e.now) && (e.op.Exchange? || e.op.ExchangePasskey?)
    ensures var q := Finish(p, e.now, e.op).1;
            var lives := Within(Begun(es, r, e.op.pending), e.now, 300 * 1000);
            var usable := e.op.Exchange? ==> Usable(es, r, e.op.steps, e.now);
            && (q.Token? ==> lives && usable && Failures(es, e.op.pending) < 5)
            && (q == Capacity ==> Recent(es, r, e.now) >= 1024)
            && (lives && usable && Spared(es, e.op.pending) ==> q == Token(e.op.token) || q == Capacity)
  {
    assert |r| == |es|;
    hide Begun, Spent, Failures, Recent, Spared, Usable, Record, RoomTold, StepsTold, SessionsTold, AllUsed, Full;
    assert LoginTold(p.logins, es, r, e.now, e.op.pending);
    if e.op.Exchange? {
      SpentTold(p, es, r, e.op.steps, e.now);
    }
    if Full(p.logins) {
      FullTold(p, es, r, e.now);
    }
  }

  lemma OrderedAt(es: seq<Event>, k: nat)
    requires Ordered(es) && k < |es|
    ensures es[k].now >= if k == 0 then 0 else es[k - 1].now
  {
  }

  lemma RunFinishes(s: Store, now: nat, op: Op)
    requires Prunes(op)
    ensures Run(s, now, op, false) == Finish(Prune(s, now, false), now, op)
  {
    hide Finish, Prune;
  }

  /** What a pruning call meets: a store that holds what its history tells, and nothing that has expired. */
  lemma CallMeets(es: seq<Event>, k: nat) returns (p: Store)
    requires Ordered(es) && k < |es| && Prunes(es[k].op)
    ensures var r := Replies(FRESH, es, false);
            && |r| == |es| && Told(p, es[..k], r[..k], es[k].now) && Fresh(p, es[k].now)
            && r[k] == Finish(p, es[k].now, es[k].op).1
  {
    var now, op := es[k].now, es[k].op;
    AlwaysTold(es, k);
    ReplyAt(FRESH, es, k);
    OrderedAt(es, k);
    var s := After(FRESH, es[..k]);
    hide Ordered, Replies, After, Run, Told, Prune, Finish, Fresh;
    PruneTold(s, es[..k], Replies(FRESH, es, false)[..k], if k == 0 then 0 else es[k - 1].now, now);
    PruneFresh(s, now);
    RunFinishes(s, now, op);
    p := Prune(s, now, false);
  }

  /**
   * Over any history, a call that exchanges a login succeeds only if the login was begun less than 300 seconds
   * ago, was not ended since and failed fewer than five times; a code also needs a step not spent in the last
   * 150 seconds. And such a call succeeds, unless the login was the victim when 256 others were begun within
   * 300 seconds, or 1024 sessions were issued in the last 24 hours.
   */
  lemma ExchangeSucceeds(es: seq<Event>, k: nat)
    requires Ordered(es) && k < |es| && (es[k].op.Exchange? || es[k].op.ExchangePasskey?)
    ensures var r := Replies(FRESH, es, false);
            && |r| == |es|
            && var now, op := es[k].now, es[k].op;
               var lives := Within(Begun(es[..k], r[..k], op.pending), now, 300 * 1000);
               var usable := op.Exchange? ==> Usable(es[..k], r[..k], op.steps, now);
               && (r[k].Token? ==> lives && usable && Failures(es[..k], op.pending) < 5)
               && (r[k] == Capacity ==> Recent(es[..k], r[..k], now) >= 1024)
               && (lives && usable && Spared(es[..k], op.pending) ==> r[k] == Token(op.token) || r[k] == Capacity)
  {
    hide Replies, Begun, Spent, Failures, Recent, Spared, Usable, Told, Fresh, Finish;
    var p := CallMeets(es, k);
    var r := Replies(FRESH, es, false);
    ExchangeTold(p, es[..k], r[..k], es[k]);
  }

  /** Over any history: a session is recognised exactly for 24 hours after it was issued, unless it was ended. */
  lemma RecognisedIff(es: seq<Event>, k: nat)
    requires Ordered(es) && k < |es| && es[k].op.IsAuthenticated?
    ensures var r := Replies(FRESH, es, false);
            && |r| == |es|
            && r[k] == Flag(Within(Issued(es[..k], r[..k], es[k].op.token), es[k].now, 24 * 3600 * 1000))
  {
    hide Replies, Issued;
    var p := CallMeets(es, k);
    var r := Replies(FRESH, es, false);
    var past, replies, token := es[..k], r[..k], es[k].op.token;
    assert SessionTold(p.logins, past, replies, es[k].now, token);
  }

  /** A login that was not crowded out waits exactly for 300 seconds, unless it was ended. */
  lemma WaitsIff(es: seq<Event>, k: nat)
    requires Ordered(es) && k < |es| && es[k].op.PendingExists? && Spared(es[..k], es[k].op.token)
    ensures var r := Replies(FRESH, es, false);
            && |r| == |es|
            && r[k] == Flag(Within(Begun(es[..k], r[..k], es[k].op.token), es[k].now, 300 * 1000))
  {
    hide Replies, Begun, Failures, Spared;
    var p := CallMeets(es, k);
    var r := Replies(FRESH, es, false);
    var past, replies, token := es[..k], r[..k], es[k].op.token;
    assert LoginTold(p.logins, past, replies, es[k].now, token);
  }

  /** A waiting login is ended by its fifth failure, and by no earlier one. */
  lemma FifthFailureEnds(es: seq<Event>, k: nat)
    requires Ordered(es) && k < |es| && es[k].op.RecordFailure? && Spared(es[..k], es[k].op.token)
    ensures var r := Replies(FRESH, es, false);
            && |r| == |es|
            && var lives := Within(Begun(es[..k], r[..k], es[k].op.token), es[k].now, 300 * 1000);
               r[k] == Flag(!lives || Failures(es[..k], es[k].op.token) == 4)
  {
    hide Replies, Begun, Failures, Spared;
    var p := CallMeets(es, k);
    var r := Replies(FRESH, es, false);
    var past, replies, token := es[..k], r[..k], es[k].op.token;
    assert LoginTold(p.logins, past, replies, es[k].now, token);
  }

  /** Steps are marked exactly when one of them was not spent in the last 150 seconds. */
  lemma MarkedIff(es: seq<Event>, k: nat)
    requires Ordered(es) && k < |es| && es[k].op.TryMark?
    ensures var r := Replies(FRESH, es, false);
            |r| == |es| && r[k] == Flag(Usable(es[..k], r[..k], es[k].op.steps, es[k].now))
  {
    hide Replies, Begun, Issued, Spent, Recent, Spared, AllUsed, Usable;
    var p := CallMeets(es, k);
    SpentTold(p, es[..k], Replies(FRESH, es, false)[..k], es[k].op.steps, es[k].now);
  }

  /** A session is refused only when 1024 were issued in the last 24 hours. */
  lemma RefusedOnlyWhenFull(es: seq<Event>, k: nat)
    requires Ordered(es) && k < |es| && (es[k].op.CreateAuthenticated? || es[k].op.CreateBasic?)
    ensures var r := Replies(FRESH, es, false);
            && |r| == |es|
            && (r[k] == Token(es[k].op.token) || r[k] == Capacity)
            && (r[k] == Capacity ==> Recent(es[..k], r[..k], es[k].now) >= 1024)
  {
    hide Replies, Begun, Issued, Spent, Recent, Spared, Full, LoginsTold, SessionsTold, StepsTold, RoomTold, Record;
    var p := CallMeets(es, k);
    if Full(p.logins) {
      FullTold(p, es[..k], Replies(FRESH, es, false)[..k], es[k].now);
    }
  }
}
