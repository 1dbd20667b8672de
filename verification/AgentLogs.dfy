/** The bounded log store: one queue per node, two global budgets, eviction oldest first. */
module AgentLogs {
  import opened Options
  import opened AgentUpdate

  const MAX_LOGS_PER_NODE := 200
  const MAX_BATCH_ENTRIES := 64
  const ENTRY_OVERHEAD_BYTES := 512

  /** A sanitized entry; `capacity` is what its strings occupy. */
  datatype Entry = Entry(message: string, occurredAt: string, capacity: nat)

  datatype Stored = Stored(entry: Entry, sequence: nat, bytes: nat)

  datatype Limits = Limits(maxEntries: nat, maxBytes: nat)

  datatype RecordResult = RecordResult(
    accepted: nat, droppedBatchCap: nat, droppedSanitize: nat, evictedGlobal: nat, evictedPerNode: nat)

  type Buffers = map<string, seq<Stored>>

  /** An entry that made room for newer ones of any node. */
  datatype Eviction = Eviction(node: string, stored: Stored)

  function Estimate(node: string, e: Entry): nat {
    ENTRY_OVERHEAD_BYTES + |node| + e.capacity
  }

  // ---- sums over queues ---------------------------------------------------------------------------------

  function BytesOf(queue: seq<Stored>): nat {
    if queue == [] then 0 else queue[0].bytes + BytesOf(queue[1..])
  }

  lemma {:induction false} BytesAppend(a: seq<Stored>, b: seq<Stored>)
    ensures BytesOf(a + b) == BytesOf(a) + BytesOf(b)
    decreases |a|
  {
    if a == [] {
      assert a + b == b;
    } else {
      assert (a + b)[1..] == a[1..] + b;
      BytesAppend(a[1..], b);
    }
  }

  ghost function Entries(m: Buffers): nat
    decreases |m|
  {
    if m == map[] then 0
    else
      var k :| k in m;
      |m[k]| + Entries(m - {k})
  }

  ghost function Bytes(m: Buffers): nat
    decreases |m|
  {
    if m == map[] then 0
    else
      var k :| k in m;
      BytesOf(m[k]) + Bytes(m - {k})
  }

  /** Any queue may be counted first. */
  lemma {:induction false} Without(m: Buffers, k: string)
    requires k in m
    ensures Entries(m) == |m[k]| + Entries(m - {k}) && Bytes(m) == BytesOf(m[k]) + Bytes(m - {k})
    decreases |m|
  {
    var e :| e in m && Entries(m) == |m[e]| + Entries(m - {e});
    if e != k {
      Without(m - {e}, k);
      assert m - {e} - {k} == m - {k} - {e};
      Without(m - {k}, e);
    }
    var b :| b in m && Bytes(m) == BytesOf(m[b]) + Bytes(m - {b});
    if b != k {
      Without(m - {b}, k);
      assert m - {b} - {k} == m - {k} - {b};
      Without(m - {k}, b);
    }
  }

  /** Replacing, adding or removing one queue. */
  lemma Replaced(m: Buffers, k: string, queue: seq<Stored>)
    ensures Entries(m[k := queue]) == Entries(m - {k}) + |queue|
    ensures Bytes(m[k := queue]) == Bytes(m - {k}) + BytesOf(queue)
    ensures k !in m ==> m - {k} == m
  {
    Without(m[k := queue], k);
    assert m[k := queue] - {k} == m - {k};
  }

  // ---- invariant ------------------------------------------------------------------------------------------

  predicate Suffix(queue: seq<Stored>, whole: seq<Stored>) {
    |queue| <= |whole| && queue == whole[|whole| - |queue|..]
  }

  /**
   * A queue is the newest part of what its node got accepted, its sequence numbers rise, and they
   * lie between `low`, which no globally evicted entry reached, and `high`, the next to be given.
   * Only a counter stuck at its maximum gives a number twice.
   */
  ghost predicate QueueOk(node: string, queue: seq<Stored>, past: seq<Stored>, low: nat, high: nat, owner: map<nat, string>) {
    && queue != [] && Suffix(queue, past)
    && (forall i | 0 <= i < |queue| :: low <= queue[i].sequence <= high)
    && (forall i, j | 0 <= i < j < |queue| :: queue[i].sequence <= queue[j].sequence)
    && (high < U64_MAX ==>
          && (forall i | 0 <= i < |queue| :: queue[i].sequence < high)
          && (forall i, j | 0 <= i < j < |queue| :: queue[i].sequence < queue[j].sequence)
          && (forall i | 0 <= i < |queue| :: queue[i].sequence in owner && owner[queue[i].sequence] == node))
  }

  lemma QueueGrows(node: string, queue: seq<Stored>, past: seq<Stored>, stored: Stored, low: nat, high: nat, owner: map<nat, string>)
    requires queue == [] || QueueOk(node, queue, past, low, high, owner)
    requires stored.sequence == high <= U64_MAX && low <= high
    ensures QueueOk(node, queue + [stored], past + [stored], low, SaturatingAdd(high, 1), owner[high := node])
  {
  }

  /** Other queues do not notice that a number has been given away. */
  lemma QueueStays(node: string, queue: seq<Stored>, past: seq<Stored>, low: nat, high: nat, owner: map<nat, string>, other: string)
    requires QueueOk(node, queue, past, low, high, owner) && high <= U64_MAX
    ensures QueueOk(node, queue, past, low, SaturatingAdd(high, 1), owner[high := other])
  {
  }

  lemma QueueShrinks(node: string, queue: seq<Stored>, past: seq<Stored>, low: nat, high: nat, owner: map<nat, string>)
    requires QueueOk(node, queue, past, low, high, owner)
    ensures queue[1..] != [] ==> QueueOk(node, queue[1..], past, low, high, owner)
  {
  }

  lemma FrontOwned(node: string, queue: seq<Stored>, past: seq<Stored>, low: nat, high: nat, owner: map<nat, string>)
    requires QueueOk(node, queue, past, low, high, owner)
    ensures low <= queue[0].sequence <= high
    ensures high < U64_MAX ==> queue[0].sequence < high && queue[0].sequence in owner && owner[queue[0].sequence] == node
  {
  }

  lemma NextIsNewer(node: string, queue: seq<Stored>, past: seq<Stored>, low: nat, high: nat, owner: map<nat, string>)
    requires QueueOk(node, queue, past, low, high, owner)
    ensures |queue| > 1 ==> queue[0].sequence <= queue[1].sequence && (high < U64_MAX ==> queue[0].sequence < queue[1].sequence)
  {
  }

  /** Once the front of all queues has gone, every other entry is newer. */
  lemma QueueRaises(node: string, queue: seq<Stored>, past: seq<Stored>, low: nat, high: nat, owner: map<nat, string>, floor: nat, evicted: string)
    requires QueueOk(node, queue, past, low, high, owner) && floor <= queue[0].sequence
    requires high < U64_MAX ==> floor in owner && owner[floor] == evicted && (node == evicted ==> floor < queue[0].sequence)
    ensures QueueOk(node, queue, past, if high < U64_MAX then floor + 1 else floor, high, owner)
  {
    assert high < U64_MAX ==> forall i | 0 < i < |queue| :: queue[0].sequence < queue[i].sequence;
    assert high >= U64_MAX ==> queue[0].sequence <= high;
  }

  function Popped(m: Buffers, node: string): Buffers
    requires node in m && m[node] != []
  {
    if |m[node]| == 1 then m - {node} else m[node := m[node][1..]]
  }

  lemma PoppedSums(m: Buffers, node: string)
    requires node in m && m[node] != []
    ensures Entries(m) == Entries(Popped(m, node)) + 1
    ensures Bytes(m) == Bytes(Popped(m, node)) + m[node][0].bytes
  {
    var queue := m[node];
    Without(m, node);
    assert BytesOf(queue) == queue[0].bytes + BytesOf(queue[1..]);
    if |queue| > 1 {
      Replaced(m, node, queue[1..]);
    }
  }

  lemma PushedSums(m: Buffers, node: string, stored: Stored)
    ensures var queue := if node in m then m[node] else [];
            && Entries(m[node := queue + [stored]]) == Entries(m) + 1
            && Bytes(m[node := queue + [stored]]) == Bytes(m) + stored.bytes
  {
    var queue := if node in m then m[node] else [];
    Replaced(m, node, queue + [stored]);
    if node in m {
      Without(m, node);
    }
    BytesAppend(queue, [stored]);
    assert BytesOf([stored]) == stored.bytes;
  }

  /** Everything `Valid` knows about the queues themselves. */
  ghost predicate QueuesOk(m: Buffers, history: Buffers, low: nat, high: nat, owner: map<nat, string>) {
    forall n | n in m :: n in history && QueueOk(n, m[n], history[n], low, high, owner)
  }

  function Queue(m: Buffers, node: string): seq<Stored> {
    if node in m then m[node] else []
  }

  function Grown(m: Buffers, node: string, stored: Stored): Buffers {
    m[node := Queue(m, node) + [stored]]
  }

  lemma PushedQueues(m: Buffers, history: Buffers, low: nat, high: nat, owner: map<nat, string>, node: string, stored: Stored)
    requires QueuesOk(m, history, low, high, owner) && low <= high <= U64_MAX && stored.sequence == high
    ensures QueuesOk(Grown(m, node, stored), Grown(history, node, stored), low, SaturatingAdd(high, 1), owner[high := node])
  {
    hide QueueOk;
    QueueGrows(node, Queue(m, node), Queue(history, node), stored, low, high, owner);
    forall n | n in m && n != node
      ensures QueueOk(n, m[n], history[n], low, SaturatingAdd(high, 1), owner[high := node])
    {
      QueueStays(n, m[n], history[n], low, high, owner, node);
    }
  }

  lemma PoppedQueues(m: Buffers, history: Buffers, low: nat, high: nat, owner: map<nat, string>, node: string)
    requires QueuesOk(m, history, low, high, owner) && node in m && m[node] != []
    ensures QueuesOk(Popped(m, node), history, low, high, owner)
  {
    hide QueueOk;
    QueueShrinks(node, m[node], history[node], low, high, owner);
  }

  function Raised(low: nat, high: nat, floor: nat): nat {
    if high < U64_MAX then floor + 1 else floor
  }

  /** The oldest front leaves: what stays is newer. */
  lemma EvictedQueues(m: Buffers, history: Buffers, low: nat, high: nat, owner: map<nat, string>, node: string)
    requires QueuesOk(m, history, low, high, owner) && node in m && (forall n | n in m :: m[n] != [])
    requires forall n | n in m :: m[node][0].sequence <= m[n][0].sequence
    ensures QueuesOk(Popped(m, node), history, Raised(low, high, m[node][0].sequence), high, owner)
    ensures low <= Raised(low, high, m[node][0].sequence) <= high
  {
    hide QueueOk;
    var floor := m[node][0].sequence;
    var rest := Popped(m, node);
    FrontOwned(node, m[node], history[node], low, high, owner);
    PoppedQueues(m, history, low, high, owner, node);
    forall n | n in rest ensures QueueOk(n, rest[n], history[n], Raised(low, high, floor), high, owner) {
      NextIsNewer(n, m[n], history[n], low, high, owner);
      QueueRaises(n, rest[n], history[n], low, high, owner, floor, node);
    }
  }

  lemma NoneEmpty(m: Buffers, history: Buffers, low: nat, high: nat, owner: map<nat, string>)
    requires QueuesOk(m, history, low, high, owner)
    ensures forall n | n in m :: m[n] != [] && n in history && Suffix(m[n], history[n])
    ensures m == map[] ==> Entries(m) == 0 && Bytes(m) == 0
  {
  }

  // ---- what eviction takes ------------------------------------------------------------------------------

  /** Nothing retained is older than anything evicted; nothing is as old until the counter is stuck. */
  ghost predicate OldestFirst(evictions: seq<Eviction>, m: Buffers, next: nat) {
    forall k, n, i | 0 <= k < |evictions| && n in m && 0 <= i < |m[n]| ::
      && evictions[k].stored.sequence <= m[n][i].sequence
      && (next < U64_MAX ==> evictions[k].stored.sequence < m[n][i].sequence)
  }

  ghost predicate Below(evictions: seq<Eviction>, horizon: nat, next: nat) {
    forall k | 0 <= k < |evictions| ::
      && evictions[k].stored.sequence <= horizon
      && (next < U64_MAX ==> evictions[k].stored.sequence < horizon)
  }

  lemma BelowOldest(evictions: seq<Eviction>, m: Buffers, history: Buffers, horizon: nat, next: nat, owner: map<nat, string>)
    requires Below(evictions, horizon, next) && QueuesOk(m, history, horizon, next, owner)
    ensures OldestFirst(evictions, m, next)
  {
  }

  lemma BelowStays(evictions: seq<Eviction>, horizon: nat, next: nat)
    requires Below(evictions, horizon, next)
    ensures Below(evictions, horizon, SaturatingAdd(next, 1))
  {
  }

  /** The evicted entries of one node, in order. */
  function EvictedOf(node: string, evictions: seq<Eviction>): seq<Stored>
    decreases |evictions|
  {
    if evictions == [] then []
    else
      var last := evictions[|evictions| - 1];
      EvictedOf(node, evictions[..|evictions| - 1]) + (if last.node == node then [last.stored] else [])
  }

  lemma {:induction false} EvictedConcat(node: string, a: seq<Eviction>, b: seq<Eviction>)
    ensures EvictedOf(node, a + b) == EvictedOf(node, a) + EvictedOf(node, b)
    decreases |b|
  {
    if b == [] {
      assert a + b == a;
    } else {
      assert (a + b)[..|a + b| - 1] == a + b[..|b| - 1];
      EvictedConcat(node, a, b[..|b| - 1]);
    }
  }

  /** Every queue lost exactly its evicted entries, from its front. */
  ghost predicate Evicted(was: Buffers, evictions: seq<Eviction>, m: Buffers) {
    forall n :: Queue(was, n) == EvictedOf(n, evictions) + Queue(m, n)
  }

  lemma EvictedNone(m: Buffers)
    ensures Evicted(m, [], m)
  {
    assert forall n :: Queue(m, n) == [] + Queue(m, n);
  }

  lemma EvictedOne(was: Buffers, evictions: seq<Eviction>, m: Buffers, node: string)
    requires Evicted(was, evictions, m) && node in m && m[node] != []
    ensures Evicted(was, evictions + [Eviction(node, m[node][0])], Popped(m, node))
  {
    var more := evictions + [Eviction(node, m[node][0])];
    forall n ensures Queue(was, n) == EvictedOf(n, more) + Queue(Popped(m, node), n) {
      assert more[..|more| - 1] == evictions;
      if n == node {
        assert Queue(m, n) == [m[n][0]] + Queue(Popped(m, node), n);
      }
    }
  }

  /**
   * A batch of `node`: other queues lose exactly what is evicted from their front; its own takes the
   * accepted entries and loses what is evicted and what its own limit drops.
   */
  ghost predicate Accounted(was: Buffers, node: string, accepted: nat, perNode: nat, evictions: seq<Eviction>, m: Buffers) {
    && (forall n | n != node :: Queue(was, n) == EvictedOf(n, evictions) + Queue(m, n))
    && |Queue(was, node)| + accepted == perNode + |EvictedOf(node, evictions)| + |Queue(m, node)|
  }

  lemma AccountedNone(m: Buffers, node: string)
    ensures Accounted(m, node, 0, 0, [], m)
  {
    assert forall n :: Queue(m, n) == [] + Queue(m, n);
  }

  lemma AccountedThen(was: Buffers, node: string, a: nat, b: nat, first: seq<Eviction>, mid: Buffers,
                      c: nat, d: nat, second: seq<Eviction>, m: Buffers)
    requires Accounted(was, node, a, b, first, mid) && Accounted(mid, node, c, d, second, m)
    ensures Accounted(was, node, a + c, b + d, first + second, m)
  {
    forall n ensures EvictedOf(n, first + second) == EvictedOf(n, first) + EvictedOf(n, second) {
      EvictedConcat(n, first, second);
    }
    forall n | n != node ensures Queue(was, n) == EvictedOf(n, first + second) + Queue(m, n) {
      assert EvictedOf(n, first) + (EvictedOf(n, second) + Queue(m, n)) == EvictedOf(n, first + second) + Queue(m, n);
    }
  }

  lemma AdmitAccounted(was: Buffers, node: string, perNode: nat, trimmed: Buffers, evictions: seq<Eviction>, m: Buffers)
    requires forall n | n != node :: Queue(trimmed, n) == Queue(was, n)
    requires |Queue(trimmed, node)| + perNode == |Queue(was, node)| + 1
    requires Evicted(trimmed, evictions, m)
    ensures Accounted(was, node, 1, perNode, evictions, m)
  {
    assert forall n :: Queue(trimmed, n) == EvictedOf(n, evictions) + Queue(m, n);
  }

  class LogState {
    var buffers: Buffers
    var entries: nat
    var estimatedBytes: nat
    var nextSequence: nat
    var evictedGlobal: nat
    var evictedPerNode: nat
    var dropped: nat
    const limits: Limits

    /** Everything each node ever got accepted, in order. */
    ghost var history: Buffers
    /** How many entries were accepted and how many left again. */
    ghost var accepted: nat
    ghost var gone: nat
    /** Above every globally evicted sequence number, until the counter is stuck at its maximum. */
    ghost var horizon: nat
    ghost var owner: map<nat, string>
    /** Every globally evicted entry, in order. */
    ghost var evictions: seq<Eviction>

    /** Counters, queues and history agree. */
    ghost predicate Sound()
      reads this
    {
      && entries == Entries(buffers) && estimatedBytes == Bytes(buffers)
      && accepted == entries + gone
      && nextSequence == SaturatingAdd(accepted, 0)
      && horizon <= nextSequence
      && QueuesOk(buffers, history, horizon, nextSequence, owner)
      && Below(evictions, horizon, nextSequence)
    }

    /** What holds between two calls. */
    ghost predicate Valid()
      reads this
    {
      Sound() && entries <= limits.maxEntries && estimatedBytes <= limits.maxBytes && Short(buffers)
    }

    /** The running totals of evictions and drops are not touched. */
    ghost predicate Untallied(global: nat, perNode: nat, drops: nat)
      reads this
    {
      evictedGlobal == global && evictedPerNode == perNode && dropped == drops
    }

    constructor (limits: Limits)
      ensures Valid() && buffers == map[] && history == map[] && this.limits == limits
    {
      buffers := map[];
      entries, estimatedBytes, nextSequence := 0, 0, 0;
      evictedGlobal, evictedPerNode, dropped := 0, 0, 0;
      history, accepted, gone, horizon, owner, evictions := map[], 0, 0, 0, map[], [];
      this.limits := limits;
    }

    /** `push_entry` */
    method Push(node: string, e: Entry)
      requires Sound()
      modifies this
      ensures Sound()
      ensures var stored := Stored(e, old(nextSequence), Estimate(node, e));
              buffers == Grown(old(buffers), node, stored) && history == Grown(old(history), node, stored)
      ensures entries == old(entries) + 1 && accepted == old(accepted) + 1 && gone == old(gone)
      ensures nextSequence == SaturatingAdd(old(nextSequence), 1) && horizon == old(horizon) && evictions == old(evictions)
      ensures Untallied(old(evictedGlobal), old(evictedPerNode), old(dropped))
    {
      hide QueuesOk, Entries, Bytes, Below;
      BelowStays(evictions, horizon, nextSequence);
      var stored := Stored(e, nextSequence, Estimate(node, e));
      PushedSums(buffers, node, stored);
      PushedQueues(buffers, history, horizon, nextSequence, owner, node, stored);
      owner := owner[nextSequence := node];
      nextSequence := SaturatingAdd(nextSequence, 1);
      buffers := buffers[node := Queue(buffers, node) + [stored]];
      history := history[node := Queue(history, node) + [stored]];
      entries := entries + 1;
      estimatedBytes := estimatedBytes + stored.bytes;
      accepted := accepted + 1;
    }

    /** `pop_front` of an existing queue; an emptied queue disappears. */
    method PopFront(node: string)
      requires Sound() && node in buffers && buffers[node] != []
      modifies this
      ensures Sound() && buffers == Popped(old(buffers), node)
      ensures entries == old(entries) - 1 && gone == old(gone) + 1 && accepted == old(accepted)
      ensures history == old(history) && nextSequence == old(nextSequence) && horizon == old(horizon) && owner == old(owner)
      ensures evictions == old(evictions)
      ensures Untallied(old(evictedGlobal), old(evictedPerNode), old(dropped))
    {
      hide QueuesOk, Entries, Bytes;
      PoppedSums(buffers, node);
      PoppedQueues(buffers, history, horizon, nextSequence, owner, node);
      var queue := buffers[node];
      entries := entries - 1;
      estimatedBytes := estimatedBytes - queue[0].bytes;
      gone := gone + 1;
      if |queue| == 1 {
        buffers := buffers - {node};
      } else {
        buffers := buffers[node := queue[1..]];
      }
    }

    /** The queue whose front is oldest. */
    method Oldest() returns (oldest: Option<string>)
      requires forall n | n in buffers :: buffers[n] != []
      ensures oldest.None? <==> buffers == map[]
      ensures oldest.Some? ==>
                && oldest.value in buffers
                && forall n | n in buffers :: buffers[oldest.value][0].sequence <= buffers[n][0].sequence
    {
      oldest := None;
      var todo := buffers.Keys;
      while todo != {}
        invariant todo <= buffers.Keys
        invariant oldest.None? ==> todo == buffers.Keys
        invariant oldest.Some? ==>
                    && oldest.value in buffers
                    && forall n | n in buffers && n !in todo :: buffers[oldest.value][0].sequence <= buffers[n][0].sequence
        decreases |todo|
      {
        var node :| node in todo;
        if oldest.None? || buffers[node][0].sequence < buffers[oldest.value][0].sequence {
          oldest := Some(node);
        }
        todo := todo - {node};
      }
    }

    /** The oldest entry of all leaves; every one that stays is newer. */
    method EvictOldest(node: string)
      requires Sound() && node in buffers && forall n | n in buffers :: buffers[n] != []
      requires forall n | n in buffers :: buffers[node][0].sequence <= buffers[n][0].sequence
      modifies this
      ensures Sound() && buffers == Popped(old(buffers), node)
      ensures entries == old(entries) - 1 && gone == old(gone) + 1 && accepted == old(accepted)
      ensures history == old(history) && nextSequence == old(nextSequence)
      ensures horizon >= old(buffers)[node][0].sequence && horizon >= old(horizon)
      ensures nextSequence < U64_MAX ==> horizon > old(buffers)[node][0].sequence
      ensures evictions == old(evictions) + [Eviction(node, old(buffers)[node][0])]
      ensures Untallied(old(evictedGlobal), old(evictedPerNode), old(dropped))
    {
      hide QueuesOk, Entries, Bytes;
      EvictedQueues(buffers, history, horizon, nextSequence, owner, node);
      ghost var front := buffers[node][0];
      PopFront(node);
      horizon := Raised(horizon, nextSequence, front.sequence);
      evictions := evictions + [Eviction(node, front)];
    }

    /** `enforce_global_budget`; some queue always has a front, so the loop ends by its condition. */
    method EnforceGlobalBudget() returns (evicted: nat)
      requires Sound()
      modifies this
      ensures Sound() && entries <= limits.maxEntries && estimatedBytes <= limits.maxBytes
      ensures entries + evicted == old(entries) && gone == old(gone) + evicted && accepted == old(accepted)
      ensures history == old(history) && nextSequence == old(nextSequence) && horizon >= old(horizon)
      ensures Untallied(old(evictedGlobal), old(evictedPerNode), old(dropped))
      ensures Short(old(buffers)) ==> Short(buffers)
      ensures old(evictions) <= evictions && |evictions| == |old(evictions)| + evicted
      ensures Evicted(old(buffers), evictions[|old(evictions)|..], buffers)
      ensures OldestFirst(evictions, buffers, nextSequence)
      ensures evicted > 0 ==>
                entries + 1 > limits.maxEntries
                || estimatedBytes + evictions[|evictions| - 1].stored.bytes > limits.maxBytes
    {
      hide QueuesOk, Entries, Bytes, Short, Popped, Evicted, OldestFirst, Below;
      evicted := 0;
      EvictedNone(buffers);
      assert evictions[|evictions|..] == [];
      while entries > limits.maxEntries || estimatedBytes > limits.maxBytes
        invariant Sound() && entries + evicted == old(entries) && gone == old(gone) + evicted && accepted == old(accepted)
        invariant history == old(history) && nextSequence == old(nextSequence) && horizon >= old(horizon)
        invariant Untallied(old(evictedGlobal), old(evictedPerNode), old(dropped))
        invariant Short(old(buffers)) ==> Short(buffers)
        invariant old(evictions) <= evictions && |evictions| == |old(evictions)| + evicted
        invariant Evicted(old(buffers), evictions[|old(evictions)|..], buffers)
        invariant evicted > 0 ==>
                    entries + 1 > limits.maxEntries
                    || estimatedBytes + evictions[|evictions| - 1].stored.bytes > limits.maxBytes
        decreases entries
      {
        NoneEmpty(buffers, history, horizon, nextSequence, owner);
        var oldest := Oldest();
        if oldest.None? {
          assert false;
          break;
        }
        PoppedShort(buffers, oldest.value);
        PoppedSums(buffers, oldest.value);
        EvictedOne(old(buffers), evictions[|old(evictions)|..], buffers, oldest.value);
        ghost var front := buffers[oldest.value][0];
        EvictOldest(oldest.value);
        assert evictions[|old(evictions)|..]
            == evictions[|old(evictions)|..|evictions| - 1] + [Eviction(oldest.value, front)];
        evicted := evicted + 1;
      }
      BelowOldest(evictions, buffers, history, horizon, nextSequence, owner);
    }

    /** Older entries of the node make room for its newest. */
    method TrimNode(node: string) returns (perNode: nat)
      requires Sound() && Short(buffers - {node}) && node in buffers
      modifies this
      ensures Sound() && Short(buffers)
      ensures entries + perNode == old(entries) && gone == old(gone) + perNode && accepted == old(accepted)
      ensures history == old(history) && nextSequence == old(nextSequence) && horizon == old(horizon)
      ensures Untallied(old(evictedGlobal), old(evictedPerNode), old(dropped))
      ensures perNode == if |old(buffers)[node]| > MAX_LOGS_PER_NODE then |old(buffers)[node]| - MAX_LOGS_PER_NODE else 0
      ensures node in buffers && buffers == old(buffers)[node := old(buffers)[node][perNode..]] && evictions == old(evictions)
    {
      hide QueuesOk, Entries, Bytes;
      perNode := 0;
      while node in buffers && |buffers[node]| > MAX_LOGS_PER_NODE
        invariant Sound() && entries + perNode == old(entries) && gone == old(gone) + perNode && accepted == old(accepted)
        invariant history == old(history) && nextSequence == old(nextSequence) && horizon == old(horizon)
        invariant Untallied(old(evictedGlobal), old(evictedPerNode), old(dropped))
        invariant perNode <= |old(buffers)[node]| && evictions == old(evictions)
        invariant node in buffers && buffers == old(buffers)[node := old(buffers)[node][perNode..]]
        invariant perNode > 0 ==> |buffers[node]| >= MAX_LOGS_PER_NODE
        decreases entries
      {
        PopFront(node);
        perNode := perNode + 1;
      }
      forall n | n in buffers ensures |buffers[n]| <= MAX_LOGS_PER_NODE {
        assert n != node ==> n in old(buffers) - {node};
      }
    }

    /** One entry of a batch: pushed, then both limits restored. */
    method Admit(node: string, e: Entry) returns (perNode: nat, global: nat)
      requires Valid()
      modifies this
      ensures Valid()
      ensures history == Grown(old(history), node, Stored(e, old(nextSequence), Estimate(node, e)))
      ensures entries + perNode + global == old(entries) + 1
      ensures perNode == if node in old(buffers) && |old(buffers)[node]| == MAX_LOGS_PER_NODE then 1 else 0
      ensures accepted == old(accepted) + 1 && nextSequence == SaturatingAdd(old(nextSequence), 1) && horizon >= old(horizon)
      ensures gone == old(gone) + perNode + global
      ensures old(evictions) <= evictions && |evictions| == |old(evictions)| + global
      ensures Accounted(old(buffers), node, 1, perNode, evictions[|old(evictions)|..], buffers)
      ensures Untallied(old(evictedGlobal), old(evictedPerNode), old(dropped))
    {
      hide QueuesOk, Entries, Bytes;
      ghost var was := buffers;
      Push(node, e);
      assert Short(buffers - {node}) by {
        assert forall n | n in buffers - {node} :: n in was && buffers[n] == was[n];
      }
      assert |buffers[node]| == |Queue(was, node)| + 1;
      assert forall n | n != node :: Queue(buffers, n) == Queue(was, n);
      hide Short, Grown, Evicted, OldestFirst, Below, Accounted;
      perNode := TrimNode(node);
      ghost var trimmed := buffers;
      global := EnforceGlobalBudget();
      AdmitAccounted(was, node, perNode, trimmed, evictions[|old(evictions)|..], buffers);
    }

    /** The entries of a batch, one after another. */
    method Batch(node: string, validNode: bool, taken: seq<Option<Entry>>) returns (r: RecordResult)
      requires Valid()
      modifies this
      ensures Valid()
      ensures r.droppedBatchCap == 0 && r.accepted + r.droppedSanitize == |taken|
      ensures r.accepted == (if validNode then |Present(taken)| else 0)
      ensures history == Extended(old(history), node, if validNode then Present(taken) else [], old(nextSequence))
      ensures old(entries) + r.accepted == entries + r.evictedPerNode + r.evictedGlobal
      ensures accepted == old(accepted) + r.accepted && gone == old(gone) + r.evictedPerNode + r.evictedGlobal
      ensures horizon >= old(horizon)
      ensures old(evictions) <= evictions && |evictions| == |old(evictions)| + r.evictedGlobal
      ensures Accounted(old(buffers), node, r.accepted, r.evictedPerNode, evictions[|old(evictions)|..], buffers)
      ensures Untallied(old(evictedGlobal), old(evictedPerNode), old(dropped))
    {
      hide Sound, Short, Grown, Extended, Present, Estimate, Queue, Accounted;
      AccountedNone(buffers, node);
      assert evictions[|evictions|..] == [];
      SequenceFits();
      r := RecordResult(0, 0, 0, 0, 0);
      var i := 0;
      ghost var present: seq<Entry> := [];
      ExtendedNil(history, node, nextSequence);
      PresentNil(taken[..0]);
      while i < |taken|
        invariant 0 <= i <= |taken| && Valid()
        invariant present == if validNode then Present(taken[..i]) else []
        invariant r.droppedBatchCap == 0 && r.accepted + r.droppedSanitize == i && r.accepted == |present|
        invariant nextSequence == SaturatingAdd(old(nextSequence), r.accepted)
        invariant history == Extended(old(history), node, present, old(nextSequence))
        invariant old(entries) + r.accepted == entries + r.evictedPerNode + r.evictedGlobal
        invariant accepted == old(accepted) + r.accepted && gone == old(gone) + r.evictedPerNode + r.evictedGlobal
        invariant horizon >= old(horizon)
        invariant old(evictions) <= evictions && |evictions| == |old(evictions)| + r.evictedGlobal
        invariant Accounted(old(buffers), node, r.accepted, r.evictedPerNode, evictions[|old(evictions)|..], buffers)
        invariant Untallied(old(evictedGlobal), old(evictedPerNode), old(dropped))
      {
        PresentSnoc(taken, i);
        hide Valid;
        if taken[i].None? || !validNode {
          r := r.(droppedSanitize := r.droppedSanitize + 1);
          assert present == if validNode then Present(taken[..i + 1]) else [];
        } else {
          ExtendedSnoc(old(history), node, present, taken[i].value, old(nextSequence));
          ghost var was, before := buffers, evictions;
          var perNode, global := Admit(node, taken[i].value);
          AccountedThen(old(buffers), node, r.accepted, r.evictedPerNode, before[|old(evictions)|..], was,
                        1, perNode, evictions[|before|..], buffers);
          assert evictions[|old(evictions)|..] == before[|old(evictions)|..] + evictions[|before|..];
          present := present + [taken[i].value];
          r := r.(accepted := r.accepted + 1, evictedPerNode := r.evictedPerNode + perNode,
                  evictedGlobal := r.evictedGlobal + global);
        }
        i := i + 1;
      }
      assert taken[..i] == taken;
    }

    lemma SequenceFits()
      requires Valid()
      ensures nextSequence == SaturatingAdd(nextSequence, 0)
    {
      hide QueuesOk, Entries, Bytes, Short;
    }

    /** `record_entries`; `batch` holds each incoming entry's sanitized form, if it has one. */
    method RecordEntries(node: string, validNode: bool, batch: seq<Option<Entry>>) returns (r: RecordResult)
      requires Valid()
      modifies this
      ensures Valid()
      ensures var taken := if |batch| > 64 then batch[..64] else batch;
              && r.droppedBatchCap == |batch| - |taken| && r.accepted + r.droppedSanitize == |taken|
              && r.accepted == (if validNode then |Present(taken)| else 0)
              && history == Extended(old(history), node, if validNode then Present(taken) else [], old(nextSequence))
      ensures old(entries) + r.accepted == entries + r.evictedPerNode + r.evictedGlobal
      ensures accepted == old(accepted) + r.accepted && gone == old(gone) + r.evictedPerNode + r.evictedGlobal
      ensures evictedGlobal == SaturatingAdd(old(evictedGlobal), r.evictedGlobal)
      ensures evictedPerNode == SaturatingAdd(old(evictedPerNode), r.evictedPerNode)
      ensures dropped == SaturatingAdd(old(dropped), r.droppedBatchCap + r.droppedSanitize)
      ensures old(evictions) <= evictions && |evictions| == |old(evictions)| + r.evictedGlobal
      ensures Accounted(old(buffers), node, r.accepted, r.evictedPerNode, evictions[|old(evictions)|..], buffers)
      ensures OldestFirst(evictions, buffers, nextSequence)
    {
      hide QueuesOk, Entries, Bytes, Short, Extended, Present, Accounted, OldestFirst, Below;
      r := Batch(node, validNode, Taken(batch));
      BelowOldest(evictions, buffers, history, horizon, nextSequence, owner);
      r := r.(droppedBatchCap := |batch| - |Taken(batch)|);
      evictedGlobal := SaturatingAdd(evictedGlobal, r.evictedGlobal);
      evictedPerNode := SaturatingAdd(evictedPerNode, r.evictedPerNode);
      dropped := SaturatingAdd(dropped, r.droppedBatchCap + r.droppedSanitize);
    }

    /** `list`: the newest retained entries of one node, oldest of them first. */
    method List(node: string, limit: nat) returns (r: seq<Entry>)
      requires Valid()
      ensures node !in buffers ==> r == []
      ensures node in buffers ==>
                && node in history && |r| <= |buffers[node]| && |r| <= |history[node]|
                && (var wanted := if limit == 0 then 1 else if limit > 200 then 200 else limit;
                    |r| == if |buffers[node]| < wanted then |buffers[node]| else wanted)
                && forall i | 0 <= i < |r| :: r[i] == history[node][|history[node]| - |r| + i].entry
    {
      hide QueuesOk, Entries, Bytes;
      NoneEmpty(buffers, history, horizon, nextSequence, owner);
      if node !in buffers {
        return [];
      }
      var buffer := buffers[node];
      var start := if |buffer| < Clamped(limit) then 0 else |buffer| - Clamped(limit);
      r := [];
      var i := start;
      while i < |buffer|
        invariant start <= i <= |buffer| && |r| == i - start
        invariant forall k | 0 <= k < |r| :: r[k] == buffer[start + k].entry
      {
        r := r + [buffer[i].entry];
        i := i + 1;
      }
    }

    /** `forget_missing`: queues of nodes no longer known disappear with all they hold. */
    method ForgetMissing(live: set<string>) returns (removed: nat)
      requires Valid()
      modifies this
      ensures Valid()
      ensures buffers == Kept(old(buffers), live)
      ensures removed == |old(buffers).Keys - live|
      ensures history == old(history) && accepted == old(accepted) && nextSequence == old(nextSequence) && horizon == old(horizon)
      ensures evictions == old(evictions)
    {
      hide Valid, Kept;
      var todo := buffers.Keys - live;
      removed := |todo|;
      KeptAll(buffers, live);
      while todo != {}
        invariant Valid() && todo <= buffers.Keys - live
        invariant buffers == Kept(old(buffers), live + todo)
        invariant history == old(history) && accepted == old(accepted) && nextSequence == old(nextSequence)
        invariant horizon == old(horizon) && evictions == old(evictions)
        decreases |todo|
      {
        var node :| node in todo;
        KeptLess(old(buffers), live, todo, node);
        RemoveNode(node);
        todo := todo - {node};
      }
      assert live + {} == live;
    }

    method RemoveNode(node: string)
      requires Valid() && node in buffers
      modifies this
      ensures Valid() && buffers == old(buffers) - {node}
      ensures history == old(history) && accepted == old(accepted) && nextSequence == old(nextSequence)
      ensures horizon == old(horizon) && entries + |old(buffers)[node]| == old(entries) && evictions == old(evictions)
    {
      hide QueueOk, Entries, Bytes;
      Without(buffers, node);
      var sum := SumBytes(buffers[node]);
      entries := entries - |buffers[node]|;
      estimatedBytes := estimatedBytes - sum;
      gone := gone + |buffers[node]|;
      buffers := buffers - {node};
    }

    static method SumBytes(buffer: seq<Stored>) returns (sum: nat)
      ensures sum == BytesOf(buffer)
    {
      sum := 0;
      var i := 0;
      while i < |buffer|
        invariant 0 <= i <= |buffer| && sum + BytesOf(buffer[i..]) == BytesOf(buffer)
      {
        assert buffer[i..][1..] == buffer[i + 1..];
        sum := sum + buffer[i].bytes;
        i := i + 1;
      }
      assert buffer[i..] == [];
    }
  }

  /** The queues of the nodes in `live`. */
  function Kept(m: Buffers, live: set<string>): Buffers {
    map n | n in m && n in live :: m[n]
  }

  lemma KeptAll(m: Buffers, live: set<string>)
    ensures m == Kept(m, live + (m.Keys - live))
  {
  }

  lemma KeptLess(m: Buffers, live: set<string>, todo: set<string>, node: string)
    requires node in todo && node !in live
    ensures Kept(m, live + todo) - {node} == Kept(m, live + (todo - {node}))
  {
  }

  predicate Short(m: Buffers) {
    forall n | n in m :: |m[n]| <= MAX_LOGS_PER_NODE
  }

  lemma PoppedShort(m: Buffers, node: string)
    requires node in m && m[node] != []
    ensures Short(m) ==> Short(Popped(m, node))
  {
  }

  function Clamped(limit: nat): nat {
    if limit < 1 then 1 else if limit > MAX_LOGS_PER_NODE then MAX_LOGS_PER_NODE else limit
  }

  // ---- batches ------------------------------------------------------------------------------------------------

  function Taken(batch: seq<Option<Entry>>): seq<Option<Entry>> {
    if |batch| <= MAX_BATCH_ENTRIES then batch else batch[..MAX_BATCH_ENTRIES]
  }

  lemma PresentNil(batch: seq<Option<Entry>>)
    requires batch == []
    ensures Present(batch) == []
  {
  }

  function Present(batch: seq<Option<Entry>>): seq<Entry> {
    if batch == [] then []
    else (if batch[0].Some? then [batch[0].value] else []) + Present(batch[1..])
  }

  lemma {:induction false} PresentConcat(a: seq<Option<Entry>>, b: seq<Option<Entry>>)
    ensures Present(a + b) == Present(a) + Present(b)
    decreases |a|
  {
    if a == [] {
      assert a + b == b;
    } else {
      var head := if a[0].Some? then [a[0].value] else [];
      assert (a + b)[1..] == a[1..] + b && (a + b)[0] == a[0];
      PresentConcat(a[1..], b);
      assert Present(a + b) == head + (Present(a[1..]) + Present(b));
      assert Present(a) == head + Present(a[1..]);
    }
  }

  lemma PresentSnoc(batch: seq<Option<Entry>>, i: nat)
    requires i < |batch|
    ensures Present(batch[..i + 1]) == Present(batch[..i]) + (if batch[i].Some? then [batch[i].value] else [])
  {
    assert batch[..i + 1] == batch[..i] + [batch[i]];
    PresentConcat(batch[..i], [batch[i]]);
  }

  /** The stored form of consecutively accepted entries. */
  function Numbered(node: string, entries: seq<Entry>, first: nat): (r: seq<Stored>)
    ensures |r| == |entries|
    ensures forall i | 0 <= i < |r| ::
              r[i].entry == entries[i] && r[i].sequence == SaturatingAdd(first, i) && r[i].bytes == 512 + |node| + entries[i].capacity
  {
    seq(|entries|, i requires 0 <= i < |entries| => Stored(entries[i], SaturatingAdd(first, i), Estimate(node, entries[i])))
  }

  /** The history of a node with more entries accepted. */
  function Extended(history: Buffers, node: string, entries: seq<Entry>, first: nat): Buffers {
    if entries == [] then history else history[node := Queue(history, node) + Numbered(node, entries, first)]
  }

  lemma ExtendedNil(history: Buffers, node: string, first: nat)
    ensures Extended(history, node, [], first) == history
  {
  }

  lemma ExtendedSnoc(history: Buffers, node: string, entries: seq<Entry>, e: Entry, first: nat)
    ensures Extended(history, node, entries + [e], first)
            == Grown(Extended(history, node, entries, first), node,
                     Stored(e, SaturatingAdd(first, |entries|), Estimate(node, e)))
  {
    NumberedSnoc(node, entries, e, first);
    if entries == [] {
      assert Numbered(node, [], first) == [];
      assert entries + [e] == [e];
      assert Queue(history, node) + Numbered(node, [e], first)
          == Queue(history, node) + [Stored(e, SaturatingAdd(first, 0), Estimate(node, e))];
    } else {
      var more := [Stored(e, SaturatingAdd(first, |entries|), Estimate(node, e))];
      assert Queue(history, node) + Numbered(node, entries + [e], first)
          == Queue(history, node) + Numbered(node, entries, first) + more;
      assert entries + [e] != [];
    }
  }

  lemma NumberedSnoc(node: string, entries: seq<Entry>, e: Entry, first: nat)
    ensures Numbered(node, entries + [e], first)
            == Numbered(node, entries, first) + [Stored(e, SaturatingAdd(first, |entries|), Estimate(node, e))]
  {
  }
}
