/**
 * Pending and authenticated browser sessions and the replay protection of one-time codes (section
 * 5.2 of RFC 6238). Times are milliseconds of one clock that never goes back.
 */
module Sessions {

  const SECOND := 1000
  const STEP_MS := 30 * SECOND
  const PENDING_MS := 300 * SECOND
  const AUTH_MS := 24 * 60 * 60 * SECOND
  const RETENTION_MS := 150 * SECOND
  const MAX_AUTH_SESSIONS := 1024
  const MAX_PENDING_SESSIONS := 256
  const MAX_FAILED_ATTEMPTS := 5

  datatype Pending = Pending(expiresAt: nat, failedAttempts: nat)

  /** What callers can see of the store. */
  datatype Logins = Logins(pending: map<string, Pending>, authenticated: map<string, nat>, basic: map<string, nat>)

  datatype Store = Store(logins: Logins, used: map<nat, nat>)

  const FRESH := Store(Logins(map[], map[], map[]), map[])

  // ---- one-time codes -----------------------------------------------------------------------------------

  predicate SixDigits(code: string) {
    |code| == 6 && forall i | 0 <= i < 6 :: '0' <= code[i] <= '9'
  }

  /** The steps whose code may be offered at `now`. */
  predicate InWindow(step: nat, now: nat) {
    now / STEP_MS <= step + 1 && step <= now / STEP_MS + 1
  }

  /** `matching_totp_steps_at`; `codeAt` is the shared secret's code for a step. */
  function MatchingSteps(codeAt: nat -> string, code: string, now: nat): (r: seq<nat>)
    ensures forall s: nat :: s in r <==>
              && |code| == 6 && (forall i | 0 <= i < 6 :: '0' <= code[i] <= '9')
              && s <= now / 30000 + 1 && now / 30000 <= s + 1 && codeAt(s) == code
  {
    if !SixDigits(code) then []
    else
      var step := now / STEP_MS;
      (if step > 0 && codeAt(step - 1) == code then [step - 1] else [])
      + (if codeAt(step) == code then [step] else [])
      + (if codeAt(step + 1) == code then [step + 1] else [])
  }

  // ---- the store ------------------------------------------------------------------------------------------

  function Live(m: map<string, nat>, now: nat): map<string, nat> {
    map t | t in m && m[t] > now :: m[t]
  }

  function LiveLogins(l: Logins, now: nat): Logins {
    Logins(map t | t in l.pending && l.pending[t].expiresAt > now :: l.pending[t],
           Live(l.authenticated, now), Live(l.basic, now))
  }

  function LiveSteps(used: map<nat, nat>, now: nat): map<nat, nat> {
    map u | u in used && used[u] > now :: used[u]
  }

  /** `prune_expired_sessions`; with `keep` the used steps are never forgotten. */
  function Prune(s: Store, now: nat, keep: bool): Store {
    Store(LiveLogins(s.logins, now), if keep then s.used else LiveSteps(s.used, now))
  }

  predicate Full(l: Logins) {
    |l.authenticated| + |l.basic| >= MAX_AUTH_SESSIONS
  }

  predicate AllUsed(used: map<nat, nat>, steps: seq<nat>) {
    forall i | 0 <= i < |steps| :: steps[i] in used
  }

  function Mark(used: map<nat, nat>, steps: seq<nat>, expires: nat): map<nat, nat> {
    used + (map i | i in steps :: expires)
  }

  datatype Op =
    | CreatePending(token: string, victim: string)
    | PendingExists(token: string)
    | RecordFailure(token: string)
    | TryMark(steps: seq<nat>, computed: nat)
    | CreateAuthenticated(token: string)
    | CreateBasic(token: string)
    | Exchange(pending: string, steps: seq<nat>, computed: nat, token: string)
    | ExchangePasskey(pending: string, token: string)
    | IsAuthenticated(token: string)
    | RemoveAuthenticated(token: string)
    | RemoveBasic(token: string)
    | ClearAll

  datatype Reply = Nothing | Flag(yes: bool) | Token(value: string) | Denied | Capacity

  function StepsOf(op: Op): seq<nat> {
    match op
    case TryMark(steps, _) => steps
    case Exchange(_, steps, _, _) => steps
    case _ => []
  }

  function Login(l: Logins, pending: string, token: string, now: nat): Logins {
    l.(pending := l.pending - {pending}, authenticated := l.authenticated[token := now + AUTH_MS])
  }

  /** What an operation does to the logins; `spent` says that all its steps are used already. */
  function Act(l: Logins, now: nat, op: Op, spent: bool): (Logins, Reply) {
    match op
    case CreatePending(token, victim) =>
      var room := if |l.pending| >= MAX_PENDING_SESSIONS then l.pending - {victim} else l.pending;
      (l.(pending := room[token := Pending(now + PENDING_MS, 0)]), Token(token))
    case PendingExists(token) => (l, Flag(token in l.pending))
    case RecordFailure(token) =>
      if token !in l.pending then (l, Flag(true))
      else
        var failed := l.pending[token].failedAttempts + 1;
        if failed >= MAX_FAILED_ATTEMPTS then (l.(pending := l.pending - {token}), Flag(true))
        else (l.(pending := l.pending[token := l.pending[token].(failedAttempts := failed)]), Flag(false))
    case TryMark(_, _) => (l, Flag(!spent))
    case CreateAuthenticated(token) =>
      if Full(l) then (l, Capacity)
      else (l.(authenticated := l.authenticated[token := now + AUTH_MS]), Token(token))
    case CreateBasic(token) =>
      if Full(l) then (l, Capacity) else (l.(basic := l.basic[token := now + AUTH_MS]), Token(token))
    case Exchange(pending, _, _, token) =>
      if pending !in l.pending then (l, Denied)
      else if Full(l) then (l, Capacity)
      else if spent then (l, Denied)
      else (Login(l, pending, token, now), Token(token))
    case ExchangePasskey(pending, token) =>
      if pending !in l.pending then (l, Denied)
      else if Full(l) then (l, Capacity)
      else (Login(l, pending, token, now), Token(token))
    case IsAuthenticated(token) => (l, Flag(token in l.authenticated))
    case RemoveAuthenticated(token) => (l.(authenticated := l.authenticated - {token}), Nothing)
    case RemoveBasic(token) => (l.(basic := l.basic - {token}), Nothing)
    case ClearAll => (Logins(map[], map[], map[]), Nothing)
  }

  predicate Prunes(op: Op) {
    !op.RemoveAuthenticated? && !op.RemoveBasic? && !op.ClearAll?
  }

  predicate Succeeds(op: Op, r: Reply) {
    (op.TryMark? && r == Flag(true)) || (op.Exchange? && r.Token?)
  }

  function Finish(p: Store, now: nat, op: Op): (Store, Reply) {
    var (logins, reply) := Act(p.logins, now, op, AllUsed(p.used, StepsOf(op)));
    (Store(logins, if Succeeds(op, reply) then Mark(p.used, StepsOf(op), now + RETENTION_MS) else p.used), reply)
  }

  /** Every operation, in the store that forgets used steps and in the one that does not. */
  function Run(s: Store, now: nat, op: Op, keep: bool): (Store, Reply) {
    Finish(if Prunes(op) then Prune(s, now, keep) else s, now, op)
  }

  // ---- forgetting is invisible -------------------------------------------------------------------------------

  datatype Event = Event(now: nat, op: Op)

  /** The steps were drawn from the window at most `delay` before they are used. */
  predicate Timely(e: Event, delay: nat) {
    e.op.TryMark? || e.op.Exchange? ==>
      && e.op.computed <= e.now <= e.op.computed + delay
      && forall i | 0 <= i < |StepsOf(e.op)| :: InWindow(StepsOf(e.op)[i], e.op.computed)
  }

  ghost predicate Schedule(es: seq<Event>, delay: nat) {
    && (forall i | 0 <= i < |es| :: Timely(es[i], delay))
    && (forall i, j | 0 <= i < j < |es| :: es[i].now <= es[j].now)
  }

  function Replies(s: Store, es: seq<Event>, keep: bool): seq<Reply>
    decreases |es|
  {
    if es == [] then []
    else
      var (next, reply) := Run(s, es[0].now, es[0].op, keep);
      [reply] + Replies(next, es[1..], keep)
  }

  /** The two stores differ only in steps nobody can offer any more. */
  ghost predicate Alike(f: Store, e: Store, last: nat) {
    f.logins == e.logins && StepsAlike(f.used, e.used, last)
  }

  ghost predicate StepsAlike(f: map<nat, nat>, e: map<nat, nat>, last: nat) {
    && (forall s | s in f :: s in e)
    && (forall s | s in e && s !in f :: Past(s, last))
    && (forall s | s in f :: f[s] >= s * STEP_MS + RETENTION_MS - STEP_MS)
  }

  /** A forgotten step lies at least four steps back. */
  predicate Past(s: nat, last: nat) {
    s * STEP_MS + RETENTION_MS - STEP_MS <= last
  }

  lemma PastIsOver(s: nat, now: nat, computed: nat)
    requires Past(s, now) && now <= computed + 60 * SECOND
    ensures !InWindow(s, computed)
  {
    assert computed >= s * STEP_MS + 2 * STEP_MS;
    assert computed / STEP_MS >= s + 2;
  }

  lemma PruneAlike(f: map<nat, nat>, e: map<nat, nat>, last: nat, now: nat)
    requires StepsAlike(f, e, last) && last <= now
    ensures StepsAlike(f, e, now) && StepsAlike(LiveSteps(f, now), e, now)
  {
  }

  lemma MarkAlike(f: map<nat, nat>, e: map<nat, nat>, now: nat, steps: seq<nat>, computed: nat)
    requires StepsAlike(f, e, now) && computed <= now && forall i | 0 <= i < |steps| :: InWindow(steps[i], computed)
    ensures StepsAlike(Mark(f, steps, now + RETENTION_MS), Mark(e, steps, now + RETENTION_MS), now)
  {
    forall i | 0 <= i < |steps| ensures now + RETENTION_MS >= steps[i] * STEP_MS + RETENTION_MS - STEP_MS {
      assert steps[i] <= computed / STEP_MS + 1;
      assert computed / STEP_MS * STEP_MS <= computed;
    }
  }

  lemma AllUsedAlike(f: map<nat, nat>, e: map<nat, nat>, now: nat, steps: seq<nat>, computed: nat)
    requires StepsAlike(f, e, now) && now <= computed + 60 * SECOND
    requires forall i | 0 <= i < |steps| :: InWindow(steps[i], computed)
    ensures AllUsed(f, steps) == AllUsed(e, steps)
  {
    forall i | 0 <= i < |steps| ensures Past(steps[i], now) ==> !InWindow(steps[i], computed) {
      if Past(steps[i], now) {
        PastIsOver(steps[i], now, computed);
      }
    }
    hide InWindow, Past;
  }

  lemma RunAlike(f: Store, e: Store, last: nat, ev: Event)
    requires Alike(f, e, last) && last <= ev.now && Timely(ev, 60 * SECOND)
    ensures var a, b := Run(f, ev.now, ev.op, false), Run(e, ev.now, ev.op, true);
            a.1 == b.1 && Alike(a.0, b.0, ev.now)
  {
    var now, op := ev.now, ev.op;
    PruneAlike(f.used, e.used, last, now);
    var pf := if Prunes(op) then Prune(f, now, false) else f;
    var pe := if Prunes(op) then Prune(e, now, true) else e;
    assert pf.logins == pe.logins && StepsAlike(pf.used, pe.used, now);
    hide Prune, Act, Finish, AllUsed, Mark, StepsAlike, InWindow;
    FinishAlike(pf, pe, now, ev);
  }

  lemma FinishAlike(f: Store, e: Store, now: nat, ev: Event)
    requires f.logins == e.logins && StepsAlike(f.used, e.used, now) && ev.now == now && Timely(ev, 60 * SECOND)
    ensures var a, b := Finish(f, now, ev.op), Finish(e, now, ev.op);
            a.1 == b.1 && Alike(a.0, b.0, now)
  {
    var steps := StepsOf(ev.op);
    hide Act, AllUsed, Mark, StepsAlike, InWindow;
    if ev.op.TryMark? || ev.op.Exchange? {
      AllUsedAlike(f.used, e.used, now, steps, ev.op.computed);
      MarkAlike(f.used, e.used, now, steps, ev.op.computed);
    } else {
      NoSteps(f.used);
      NoSteps(e.used);
    }
  }

  lemma NoSteps(used: map<nat, nat>)
    ensures AllUsed(used, [])
  {
  }

  lemma {:induction false} RepliesAlike(f: Store, e: Store, last: nat, es: seq<Event>)
    requires Alike(f, e, last) && Schedule(es, 60 * SECOND) && (es != [] ==> last <= es[0].now)
    ensures Replies(f, es, false) == Replies(e, es, true)
    decreases |es|
  {
    if es != [] {
      RunAlike(f, e, last, es[0]);
      var a, b := Run(f, es[0].now, es[0].op, false), Run(e, es[0].now, es[0].op, true);
      assert forall i | 0 <= i < |es[1..]| :: es[1..][i] == es[i + 1];
      hide Run, Alike;
      RepliesAlike(a.0, b.0, es[0].now, es[1..]);
    }
  }

  /** A code computed just over a minute before it is used can be used twice. */
  lemma ForgettingShows(delay: nat)
    requires delay > 60 * SECOND
    ensures exists es: seq<Event> :: Schedule(es, delay) && Replies(FRESH, es, false) != Replies(FRESH, es, true)
  {
    var first := Event(0, TryMark([1], 0));
    var second := Event(RETENTION_MS, TryMark([1], 90 * SECOND - 1));
    var es := [first, second];
    ShowsSchedule(delay);
    assert Replies(FRESH, es, false) == [Flag(true), Flag(true)] by {
      ShowsReplies(false);
    }
    assert Replies(FRESH, es, true) == [Flag(true), Flag(false)] by {
      ShowsReplies(true);
    }
    hide Schedule, Replies;
    assert [Flag(true), Flag(true)][1] != [Flag(true), Flag(false)][1];
  }

  lemma ShowsSchedule(delay: nat)
    requires delay > 60 * SECOND
    ensures Schedule([Event(0, TryMark([1], 0)), Event(RETENTION_MS, TryMark([1], 90 * SECOND - 1))], delay)
  {
    assert InWindow(1, 0) && InWindow(1, 90 * SECOND - 1);
  }

  lemma ShowsReplies(keep: bool)
    ensures Replies(FRESH, [Event(0, TryMark([1], 0)), Event(RETENTION_MS, TryMark([1], 90 * SECOND - 1))], keep)
            == [Flag(true), Flag(!keep)]
  {
    hide Run, Replies;
    var first := Event(0, TryMark([1], 0));
    var second := Event(RETENTION_MS, TryMark([1], 90 * SECOND - 1));
    var marked := FRESH.(used := map[1 := RETENTION_MS]);
    FirstUse(keep);
    SecondUse(keep);
    RepliesCons(FRESH, first, [second], keep);
    RepliesCons(marked, second, [], keep);
    assert [first] + [second] == [first, second] && [second] + [] == [second];
    NoReplies(Run(marked, second.now, second.op, keep).0, keep);
  }

  lemma RepliesCons(s: Store, e: Event, rest: seq<Event>, keep: bool)
    ensures Replies(s, [e] + rest, keep) == [Run(s, e.now, e.op, keep).1] + Replies(Run(s, e.now, e.op, keep).0, rest, keep)
  {
    hide Run;
    assert ([e] + rest)[1..] == rest;
  }

  lemma NoReplies(s: Store, keep: bool)
    ensures Replies(s, [], keep) == []
  {
  }

  lemma FirstUse(keep: bool)
    ensures Run(FRESH, 0, TryMark([1], 0), keep) == (FRESH.(used := map[1 := RETENTION_MS]), Flag(true))
  {
    assert Prune(FRESH, 0, keep) == FRESH;
    assert [1][0] !in FRESH.used;
    assert Mark(map[], [1], RETENTION_MS) == map[1 := RETENTION_MS];
  }

  lemma SecondUse(keep: bool)
    ensures Run(FRESH.(used := map[1 := RETENTION_MS]), RETENTION_MS, TryMark([1], 90 * SECOND - 1), keep).1 == Flag(!keep)
  {
    var marked := FRESH.(used := map[1 := RETENTION_MS]);
    assert LiveLogins(FRESH.logins, RETENTION_MS) == FRESH.logins;
    if keep {
      assert AllUsed(marked.used, [1]);
    } else {
      assert LiveSteps(marked.used, RETENTION_MS) == map[];
      assert [1][0] !in LiveSteps(marked.used, RETENTION_MS);
    }
  }

  /**
   * Forgetting used steps after 150 seconds is indistinguishable from never forgetting them exactly
   * when no more than 60 seconds pass between computing the steps and using them.
   */
  lemma ForgettingInvisibleIff(delay: nat)
    ensures (forall es: seq<Event> :: Schedule(es, delay) ==> Replies(FRESH, es, false) == Replies(FRESH, es, true))
            <==> delay <= 60 * SECOND
  {
    if delay <= 60 * SECOND {
      forall es: seq<Event> | Schedule(es, delay) ensures Replies(FRESH, es, false) == Replies(FRESH, es, true) {
        assert StepsAlike(FRESH.used, FRESH.used, 0);
        assert Schedule(es, 60 * SECOND);
        RepliesAlike(FRESH, FRESH, 0, es);
      }
    } else {
      ForgettingShows(delay);
    }
  }

  // ---- what a success consumes --------------------------------------------------------------------------------

  /** A success takes its pending token, and marks its steps, of which the store did not hold at least one. */
  lemma ExchangeConsumes(s: Store, now: nat, op: Op, keep: bool)
    requires op.Exchange? && Run(s, now, op, keep).1.Token?
    ensures var t := Run(s, now, op, keep).0;
            && op.pending in s.logins.pending && op.pending !in t.logins.pending
            && (exists i :: 0 <= i < |op.steps| && op.steps[i] !in Prune(s, now, keep).used)
            && (forall i | 0 <= i < |op.steps| :: op.steps[i] in t.used && t.used[op.steps[i]] == now + RETENTION_MS)
            && op.token in t.logins.authenticated
  {
    var p := Prune(s, now, keep);
    assert p.logins.pending.Keys <= s.logins.pending.Keys;
    assert !AllUsed(p.used, op.steps);
    hide Prune, LiveLogins, LiveSteps;
  }

  /** A store without room refuses a login and keeps both the pending token and the steps for a retry. */
  lemma FullStoreKeepsLogin(s: Store, now: nat, op: Op, keep: bool)
    requires op.Exchange? && op.pending in Prune(s, now, keep).logins.pending && Full(Prune(s, now, keep).logins)
    ensures Run(s, now, op, keep) == (Prune(s, now, keep), Capacity)
  {
    hide Prune, AllUsed, Mark;
  }

  /** Used steps stay used in the store that never forgets, so no step ever pays twice. */
  lemma UsedStays(s: Store, now: nat, op: Op)
    ensures s.used.Keys <= Run(s, now, op, true).0.used.Keys
  {
    hide Act, LiveLogins;
  }

  /** What a success adds to the used steps, and that it needed a new one. */
  lemma SuccessUses(s: Store, now: nat, op: Op)
    requires Succeeds(op, Run(s, now, op, true).1)
    ensures exists k :: 0 <= k < |StepsOf(op)| && StepsOf(op)[k] !in s.used
    ensures forall k | 0 <= k < |StepsOf(op)| :: StepsOf(op)[k] in Run(s, now, op, true).0.used
  {
    var p := Prune(s, now, true);
    assert p.used == s.used && !AllUsed(p.used, StepsOf(op));
    hide Prune, LiveLogins;
  }

  /** One of the steps of the `i`-th operation belongs to no success before it, and is not in `used`. */
  ghost predicate NewStep(used: set<nat>, es: seq<Event>, r: seq<Reply>, i: nat)
    requires i < |es| && |r| == |es|
  {
    exists k :: 0 <= k < |StepsOf(es[i].op)| && Unspent(used, es, r, i, StepsOf(es[i].op)[k])
  }

  predicate Unspent(used: set<nat>, es: seq<Event>, r: seq<Reply>, i: nat, step: nat)
    requires i < |es| && |r| == |es|
  {
    step !in used && forall j | 0 <= j < i && Succeeds(es[j].op, r[j]) :: step !in StepsOf(es[j].op)
  }

  /** Every success used a step that no earlier success had. */
  ghost predicate NeverReplayed(es: seq<Event>, r: seq<Reply>) {
    |r| == |es| && forall i | 0 <= i < |es| && Succeeds(es[i].op, r[i]) :: NewStep({}, es, r, i)
  }

  lemma {:induction false} SuccessesDiffer(s: Store, es: seq<Event>, i: nat)
    requires i < |es|
    ensures var r := Replies(s, es, true);
            |r| == |es| && (Succeeds(es[i].op, r[i]) ==> NewStep(s.used.Keys, es, r, i))
    decreases |es|
  {
    hide Run;
    var (next, reply) := Run(s, es[0].now, es[0].op, true);
    var rest := Replies(next, es[1..], true);
    var r := Replies(s, es, true);
    assert r == [reply] + rest;
    RepliesLength(next, es[1..], true);
    hide Replies;
    if Succeeds(es[i].op, r[i]) {
      if i == 0 {
        SuccessUses(s, es[0].now, es[0].op);
        var k :| 0 <= k < |StepsOf(es[0].op)| && StepsOf(es[0].op)[k] !in s.used;
        assert Unspent(s.used.Keys, es, r, 0, StepsOf(es[0].op)[k]);
      } else {
        SuccessesDiffer(next, es[1..], i - 1);
        assert es[1..][i - 1] == es[i] && rest[i - 1] == r[i];
        var k :| 0 <= k < |StepsOf(es[i].op)| && Unspent(next.used.Keys, es[1..], rest, i - 1, StepsOf(es[i].op)[k]);
        UsedStays(s, es[0].now, es[0].op);
        if Succeeds(es[0].op, reply) {
          SuccessUses(s, es[0].now, es[0].op);
        }
        UnspentBefore(s.used.Keys, next.used.Keys, es, r, i, StepsOf(es[i].op)[k]);
      }
    }
  }

  lemma UnspentBefore(used: set<nat>, later: set<nat>, es: seq<Event>, r: seq<Reply>, i: nat, step: nat)
    requires 0 < i < |es| && |r| == |es| && used <= later
    requires Unspent(later, es[1..], r[1..], i - 1, step)
    requires Succeeds(es[0].op, r[0]) ==> forall k | 0 <= k < |StepsOf(es[0].op)| :: StepsOf(es[0].op)[k] in later
    ensures Unspent(used, es, r, i, step)
  {
    hide Succeeds, StepsOf;
    forall j | 0 <= j < i && Succeeds(es[j].op, r[j]) ensures step !in StepsOf(es[j].op) {
      if j > 0 {
        assert es[1..][j - 1] == es[j] && r[1..][j - 1] == r[j];
      }
    }
  }

  lemma {:induction false} RepliesLength(s: Store, es: seq<Event>, keep: bool)
    ensures |Replies(s, es, keep)| == |es|
    decreases |es|
  {
    hide Run;
    if es != [] {
      RepliesLength(Run(s, es[0].now, es[0].op, keep).0, es[1..], keep);
    }
  }

  /**
   * In the store that forgets: over any schedule, each success, of an exchange or a mark, has a step
   * that no earlier success had, exactly when at most 60 seconds pass before steps are used.
   */
  lemma NoCodeReplayedIff(delay: nat)
    ensures (forall es: seq<Event> :: Schedule(es, delay) ==> NeverReplayed(es, Replies(FRESH, es, false)))
            <==> delay <= 60 * SECOND
  {
    if delay <= 60 * SECOND {
      forall es: seq<Event> | Schedule(es, delay) ensures NeverReplayed(es, Replies(FRESH, es, false)) {
        ForgettingInvisibleIff(delay);
        assert Replies(FRESH, es, false) == Replies(FRESH, es, true);
        hide Replies, Schedule;
        RepliesLength(FRESH, es, true);
        forall i | 0 <= i < |es| && Succeeds(es[i].op, Replies(FRESH, es, true)[i])
          ensures NewStep({}, es, Replies(FRESH, es, true), i)
        {
          SuccessesDiffer(FRESH, es, i);
          assert FRESH.used.Keys == {};
        }
      }
    } else {
      var first := Event(0, TryMark([1], 0));
      var second := Event(RETENTION_MS, TryMark([1], 90 * SECOND - 1));
      ShowsSchedule(delay);
      ShowsReplies(false);
      ReplayShown(first, second);
    }
  }

  lemma ReplayShown(first: Event, second: Event)
    requires first.op.TryMark? && second.op.TryMark? && first.op.steps == [1] && second.op.steps == [1]
    ensures !NeverReplayed([first, second], [Flag(true), Flag(true)])
  {
    var es, r := [first, second], [Flag(true), Flag(true)];
    assert Succeeds(es[0].op, r[0]) && Succeeds(es[1].op, r[1]);
    assert StepsOf(es[0].op) == [1] && StepsOf(es[1].op) == [1];
    assert 1 in StepsOf(es[0].op);
    assert forall k | 0 <= k < |StepsOf(es[1].op)| :: !Unspent({}, es, r, 1, StepsOf(es[1].op)[k]);
    assert !NewStep({}, es, r, 1);
  }

  predicate Spends(op: Op, token: string) {
    (op.Exchange? || op.ExchangePasskey?) && op.pending == token
  }

  lemma SpentOnce(s: Store, e: Event, token: string, keep: bool)
    requires token !in s.logins.pending && !(e.op.CreatePending? && e.op.token == token)
    ensures var (next, reply) := Run(s, e.now, e.op, keep);
            token !in next.logins.pending && (Spends(e.op, token) ==> reply == Denied)
  {
    assert token !in Prune(s, e.now, keep).logins.pending;
    hide Prune, AllUsed, Mark;
  }

  /** Unless its token is issued again, a spent or unknown pending login never succeeds again. */
  lemma {:induction false} SpentStaysSpent(s: Store, es: seq<Event>, token: string, keep: bool)
    requires token !in s.logins.pending
    requires forall i | 0 <= i < |es| :: !(es[i].op.CreatePending? && es[i].op.token == token)
    ensures var r := Replies(s, es, keep);
            |r| == |es| && forall i | 0 <= i < |es| && Spends(es[i].op, token) :: r[i] == Denied
    decreases |es|
  {
    if es != [] {
      var (next, reply) := Run(s, es[0].now, es[0].op, keep);
      SpentOnce(s, es[0], token, keep);
      var rest := Replies(next, es[1..], keep);
      assert Replies(s, es, keep) == [reply] + rest;
      assert forall i | 0 <= i < |es[1..]| :: es[1..][i] == es[i + 1];
      hide Run, Replies;
      SpentStaysSpent(next, es[1..], token, keep);
      forall i | 0 <= i < |es| && Spends(es[i].op, token) ensures ([reply] + rest)[i] == Denied {
        if i > 0 {
          assert es[1..][i - 1] == es[i];
        }
      }
    }
  }

  // ---- bounds ---------------------------------------------------------------------------------------------------

  predicate Bounded(l: Logins) {
    && |l.pending| <= MAX_PENDING_SESSIONS
    && |l.authenticated| + |l.basic| <= MAX_AUTH_SESSIONS
    && forall t | t in l.pending :: l.pending[t].failedAttempts < MAX_FAILED_ATTEMPTS
  }

  /** The victim of a full pending store is one that expires first. */
  predicate VictimOk(l: Logins, op: Op) {
    op.CreatePending? && |l.pending| >= MAX_PENDING_SESSIONS ==>
      op.victim in l.pending && forall t | t in l.pending :: l.pending[op.victim].expiresAt <= l.pending[t].expiresAt
  }

  lemma FewerKeys<K, V>(a: map<K, V>, b: map<K, V>)
    requires a.Keys <= b.Keys
    ensures |a| <= |b|
  {
    var rest := b.Keys - a.Keys;
    assert b.Keys == a.Keys + rest;
    assert |a.Keys + rest| == |a.Keys| + |rest|;
    assert |a| == |a.Keys| && |b| == |b.Keys|;
  }

  lemma OneMoreKey<K, V>(m: map<K, V>, k: K, v: V)
    ensures |m[k := v]| <= |m| + 1
    ensures k in m ==> |m[k := v]| == |m| && |m - {k}| == |m| - 1
    ensures |m - {k}| <= |m|
  {
    assert m[k := v].Keys == m.Keys + {k};
    assert |m[k := v]| == |m[k := v].Keys| && |m| == |m.Keys|;
    assert (m - {k}).Keys == m.Keys - {k};
    assert |m - {k}| == |(m - {k}).Keys|;
    if k in m {
      assert m.Keys + {k} == m.Keys;
    }
  }

  lemma LiveBounded(l: Logins, now: nat)
    requires Bounded(l)
    ensures Bounded(LiveLogins(l, now))
  {
    var p := LiveLogins(l, now);
    FewerKeys(p.pending, l.pending);
    FewerKeys(p.authenticated, l.authenticated);
    FewerKeys(p.basic, l.basic);
  }

  lemma FailureBounded(l: Logins, now: nat, token: string)
    requires Bounded(l)
    ensures Bounded(Act(l, now, RecordFailure(token), false).0)
  {
    if token in l.pending {
      OneMoreKey(l.pending, token, l.pending[token].(failedAttempts := l.pending[token].failedAttempts + 1));
    }
  }

  lemma CreationBounded(l: Logins, now: nat, op: Op)
    requires Bounded(l) && VictimOk(l, op) && op.CreatePending?
    ensures Bounded(Act(l, now, op, false).0)
  {
    var room := if |l.pending| >= MAX_PENDING_SESSIONS then l.pending - {op.victim} else l.pending;
    RoomMade(l, op);
    hide Bounded, VictimOk;
    Inserted(l, room, op.token, now + PENDING_MS);
  }

  lemma RoomMade(l: Logins, op: Op)
    requires Bounded(l) && VictimOk(l, op) && op.CreatePending?
    ensures var room := if |l.pending| >= MAX_PENDING_SESSIONS then l.pending - {op.victim} else l.pending;
            |room| < MAX_PENDING_SESSIONS && Bounded(l.(pending := room))
  {
    if |l.pending| >= MAX_PENDING_SESSIONS {
      assert op.victim in l.pending;
      OneMoreKey(l.pending, op.victim, Pending(0, 0));
    }
  }

  lemma Inserted(l: Logins, room: map<string, Pending>, token: string, expires: nat)
    requires |room| < MAX_PENDING_SESSIONS && Bounded(l.(pending := room))
    ensures Bounded(l.(pending := room[token := Pending(expires, 0)]))
  {
    OneMoreKey(room, token, Pending(expires, 0));
  }

  lemma LoginBounded(l: Logins, now: nat, pending: string, token: string)
    requires Bounded(l) && !Full(l)
    ensures Bounded(Login(l, pending, token, now))
    ensures Bounded(l.(authenticated := l.authenticated[token := now + AUTH_MS]))
    ensures Bounded(l.(basic := l.basic[token := now + AUTH_MS]))
  {
    OneMoreKey(l.pending, pending, Pending(0, 0));
    OneMoreKey(l.authenticated, token, now + AUTH_MS);
    OneMoreKey(l.basic, token, now + AUTH_MS);
  }

  lemma RemovalBounded(l: Logins, token: string)
    requires Bounded(l)
    ensures Bounded(l.(authenticated := l.authenticated - {token}))
    ensures Bounded(l.(basic := l.basic - {token}))
    ensures Bounded(Logins(map[], map[], map[]))
  {
    OneMoreKey(l.authenticated, token, 0);
    OneMoreKey(l.basic, token, 0);
  }

  lemma LoginActBounded(l: Logins, now: nat, op: Op, spent: bool)
    requires Bounded(l) && (op.Exchange? || op.ExchangePasskey? || op.CreateAuthenticated? || op.CreateBasic?)
    ensures Bounded(Act(l, now, op, spent).0)
  {
    hide Bounded;
    if !Full(l) {
      LoginBounded(l, now, if op.Exchange? || op.ExchangePasskey? then op.pending else "", op.token);
    }
  }

  lemma ActBounded(l: Logins, now: nat, op: Op, spent: bool)
    requires Bounded(l) && VictimOk(l, op)
    ensures Bounded(Act(l, now, op, spent).0)
  {
    hide Bounded, VictimOk, Full;
    if op.Exchange? || op.ExchangePasskey? || op.CreateAuthenticated? || op.CreateBasic? {
      LoginActBounded(l, now, op, spent);
    } else if op.CreatePending? {
      CreationBounded(l, now, op);
    } else if op.RecordFailure? {
      FailureBounded(l, now, op.token);
    } else if op.RemoveAuthenticated? || op.RemoveBasic? {
      RemovalBounded(l, op.token);
    } else if op.ClearAll? {
      RemovalBounded(l, "");
    }
  }

  /** No operation lets either budget overflow, or a pending login survive its fifth failure. */
  lemma RunBounded(s: Store, now: nat, op: Op, keep: bool)
    requires Bounded(s.logins) && VictimOk(LiveLogins(s.logins, now), op)
    ensures Bounded(Run(s, now, op, keep).0.logins)
  {
    LiveBounded(s.logins, now);
    var p := if Prunes(op) then Prune(s, now, keep) else s;
    var spent := AllUsed(p.used, StepsOf(op));
    hide Bounded, LiveLogins, LiveSteps, Act, Mark, AllUsed, VictimOk;
    if !Prunes(op) {
      assert VictimOk(p.logins, op) by {
        NoVictim(p.logins, op);
      }
    }
    ActBounded(p.logins, now, op, spent);
  }

  lemma NoVictim(l: Logins, op: Op)
    requires !op.CreatePending?
    ensures VictimOk(l, op)
  {
  }

  // ---- as it is written -------------------------------------------------------------------------------------------

  lemma MarkNil(used: map<nat, nat>, steps: seq<nat>, expires: nat)
    ensures Mark(used, steps[..0], expires) == used
  {
  }

  lemma MarkSnoc(used: map<nat, nat>, steps: seq<nat>, i: nat, expires: nat)
    requires i < |steps|
    ensures Mark(used, steps[..i + 1], expires) == Mark(used, steps[..i], expires)[steps[i] := expires]
  {
    assert steps[..i + 1] == steps[..i] + [steps[i]];
  }

  class TwoFactorSessions {
    var pending: map<string, Pending>
    var authenticated: map<string, nat>
    var basic: map<string, nat>
    var used: map<nat, nat>

    function Here(): Store
      reads this
    {
      Store(Logins(pending, authenticated, basic), used)
    }

    constructor ()
      ensures Here() == FRESH
    {
      pending, authenticated, basic, used := map[], map[], map[], map[];
    }

    method PruneExpired(now: nat)
      modifies this
      ensures Here() == Prune(old(Here()), now, false)
    {
      assert Live(authenticated, now) == map t | t in authenticated && authenticated[t] > now :: authenticated[t];
      pending := map t | t in pending && pending[t].expiresAt > now :: pending[t];
      authenticated := map t | t in authenticated && authenticated[t] > now :: authenticated[t];
      basic := map t | t in basic && basic[t] > now :: basic[t];
      used := map u | u in used && used[u] > now :: used[u];
    }

    /** The pending session that expires first. */
    method Oldest() returns (oldest: string)
      requires pending != map[]
      ensures oldest in pending && forall t | t in pending :: pending[oldest].expiresAt <= pending[t].expiresAt
    {
      oldest :| oldest in pending;
      var todo := pending.Keys - {oldest};
      while todo != {}
        invariant todo <= pending.Keys && oldest in pending
        invariant forall t | t in pending && t !in todo :: pending[oldest].expiresAt <= pending[t].expiresAt
        decreases |todo|
      {
        var t :| t in todo;
        if pending[t].expiresAt < pending[oldest].expiresAt {
          oldest := t;
        }
        todo := todo - {t};
      }
    }

    method CreatePending(now: nat, token: string) returns (ghost victim: string)
      modifies this
      ensures VictimOk(LiveLogins(old(Here()).logins, now), Op.CreatePending(token, victim))
      ensures Here() == Run(old(Here()), now, Op.CreatePending(token, victim), false).0
    {
      var expiresAt := now + PENDING_MS;
      victim := "";
      PruneExpired(now);
      if |pending| >= MAX_PENDING_SESSIONS {
        assert pending != map[];
        var oldest := Oldest();
        victim := oldest;
        pending := pending - {oldest};
      }
      pending := pending[token := Pending(expiresAt, 0)];
    }

    method RecordFailedAttempt(now: nat, token: string) returns (invalid: bool)
      modifies this
      ensures (Here(), Flag(invalid)) == Run(old(Here()), now, RecordFailure(token), false)
    {
      PruneExpired(now);
      if token !in pending {
        return true;
      }
      var session := pending[token].(failedAttempts := pending[token].failedAttempts + 1);
      if session.failedAttempts >= MAX_FAILED_ATTEMPTS {
        pending := pending - {token};
        return true;
      }
      pending := pending[token := session];
      invalid := false;
    }

    method AllSpent(steps: seq<nat>) returns (spent: bool)
      ensures spent == AllUsed(used, steps)
    {
      var i := 0;
      while i < |steps| && steps[i] in used
        invariant 0 <= i <= |steps| && forall k | 0 <= k < i :: steps[k] in used
      {
        i := i + 1;
      }
      spent := i == |steps|;
    }

    /** `mark_unused_totp_steps`: all matching steps are spent together, unless none is new. */
    method MarkUnused(steps: seq<nat>, now: nat) returns (ok: bool)
      modifies `used
      ensures ok == !AllUsed(old(used), steps)
      ensures used == if ok then Mark(old(used), steps, now + RETENTION_MS) else old(used)
    {
      hide AllUsed;
      var spent := AllSpent(steps);
      if spent {
        return false;
      }
      MarkAll(steps, now + RETENTION_MS);
      ok := true;
    }

    method MarkAll(steps: seq<nat>, expiresAt: nat)
      modifies `used
      ensures used == Mark(old(used), steps, expiresAt)
    {
      MarkNil(used, steps, expiresAt);
      hide Mark;
      var i := 0;
      while i < |steps|
        invariant 0 <= i <= |steps| && used == Mark(old(used), steps[..i], expiresAt)
      {
        MarkSnoc(old(used), steps, i, expiresAt);
        used := used[steps[i] := expiresAt];
        i := i + 1;
      }
      assert steps[..i] == steps;
    }

    method TryMarkUnused(now: nat, steps: seq<nat>, ghost computed: nat) returns (ok: bool)
      modifies this
      ensures (Here(), Flag(ok)) == Run(old(Here()), now, TryMark(steps, computed), false)
    {
      PruneExpired(now);
      hide Prune, Mark, AllUsed;
      ok := MarkUnused(steps, now);
    }

    method CreateAuthenticated(now: nat, token: string) returns (r: Reply)
      modifies this
      ensures (Here(), r) == Run(old(Here()), now, Op.CreateAuthenticated(token), false)
    {
      PruneExpired(now);
      if |authenticated| + |basic| >= MAX_AUTH_SESSIONS {
        return Capacity;
      }
      authenticated := authenticated[token := now + AUTH_MS];
      r := Token(token);
    }

    method ExchangePending(now: nat, token: string, steps: seq<nat>, ghost computed: nat, issued: string) returns (r: Reply)
      modifies this
      ensures (Here(), r) == Run(old(Here()), now, Exchange(token, steps, computed, issued), false)
    {
      hide LiveLogins, LiveSteps, Mark, AllUsed;
      PruneExpired(now);
      ghost var pruned := Here();
      assert Run(old(Here()), now, Exchange(token, steps, computed, issued), false)
          == Finish(pruned, now, Exchange(token, steps, computed, issued));
      hide Run, Prune;
      if token !in pending {
        return Denied;
      }
      // Before anything is consumed, so that a full store leaves the login retryable.
      if |authenticated| + |basic| >= MAX_AUTH_SESSIONS {
        return Capacity;
      }
      var ok := MarkUnused(steps, now);
      if !ok {
        return Denied;
      }
      pending := pending - {token};
      authenticated := authenticated[issued := now + AUTH_MS];
      r := Token(issued);
    }

    method ExchangePendingForPasskey(now: nat, token: string, issued: string) returns (r: Reply)
      modifies this
      ensures (Here(), r) == Run(old(Here()), now, ExchangePasskey(token, issued), false)
    {
      PruneExpired(now);
      if token !in pending {
        return Denied;
      }
      if |authenticated| + |basic| >= MAX_AUTH_SESSIONS {
        return Capacity;
      }
      pending := pending - {token};
      authenticated := authenticated[issued := now + AUTH_MS];
      r := Token(issued);
    }

    method ClearAuthenticated(now: nat)
      modifies this
      ensures Here() == Run(old(Here()), now, ClearAll, false).0
    {
      pending := map[];
      authenticated := map[];
      basic := map[];
    }
  }
}
