/** From plans to runs: a list of writes that keeps the invariant whatever the machine does to it. */
module Safety {
  import opened LocalPolicy
  import opened Trust
  import opened Journals
  import opened Disks
  import opened Worlds
  import Runtime
  import Download

  /** The latch of a failed command keeps the invariant from here, whichever of its writes land. */
  ghost predicate LatchSafe(p: Policy, env: Env, s: State, mem: Journal, e: Error) {
    Latches(mem, e) ==>
      && Permitted(p, s, SaveJournal(Latched(mem)))
      && Inv(p, env, Do(s, SaveJournal(Latched(mem))))
  }

  /** One item may be attempted here, and its failure may latch here or after it took effect. */
  ghost predicate Sound(p: Policy, env: Env, s: State, item: Item) {
    && Permitted(p, s, item.write)
    && (item.fault.Latching? ==>
          && LatchSafe(p, env, s, item.mem, Failure)
          && LatchSafe(p, env, Do(s, item.write), item.mem, Failure))
  }

  /** The invariant holds here, after every prefix of `items`, and after every possible fault. */
  ghost predicate Safe(p: Policy, env: Env, s: State, items: seq<Item>)
    decreases items
  {
    && Inv(p, env, s)
    && (items != [] ==>
          && Sound(p, env, s, items[0])
          && Safe(p, env, Do(s, items[0].write), items[1..])
          && (items[0].fault.Ignored? ==> Safe(p, env, s, items[1..]))
          && RescueSafe(p, env, s, items[0]))
  }

  /** What goes on after a failed write is safe, whether or not the write took effect. */
  ghost predicate RescueSafe(p: Policy, env: Env, s: State, item: Item)
    decreases item
  {
    item.fault.Rescued? ==>
      && Safe(p, env, s, item.fault.lost.items)
      && Safe(p, env, Do(s, item.write), item.fault.torn.items)
  }

  lemma RequireRecoverySafe(p: Policy, env: Env, s: State)
    requires Inv(p, env, s)
    ensures Inv(p, env, Do(s, RequireRecovery)) && Permitted(p, s, RequireRecovery)
  {
  }

  lemma SafeNil(p: Policy, env: Env, s: State)
    requires Inv(p, env, s)
    ensures Safe(p, env, s, [])
  {
  }

  lemma SafeCons(p: Policy, env: Env, s: State, item: Item, rest: seq<Item>)
    requires Inv(p, env, s) && Sound(p, env, s, item) && !item.fault.Ignored? && !item.fault.Rescued?
    requires Safe(p, env, Do(s, item.write), rest)
    ensures Safe(p, env, s, [item] + rest)
  {
    hide Inv, Sound, Do;
    assert ([item] + rest)[1..] == rest;
  }

  /** An item whose failure is ignored. */
  lemma SafeConsIgnored(p: Policy, env: Env, s: State, item: Item, rest: seq<Item>)
    requires Inv(p, env, s) && Permitted(p, s, item.write) && item.fault.Ignored?
    requires Safe(p, env, Do(s, item.write), rest) && Safe(p, env, s, rest)
    ensures Safe(p, env, s, [item] + rest)
  {
    hide Inv, Permitted, Do, LatchSafe;
    assert ([item] + rest)[1..] == rest;
  }

  lemma LatchItemsSafe(p: Policy, env: Env, s: State, mem: Journal, e: Error)
    requires Inv(p, env, s) && LatchSafe(p, env, s, mem, e)
    ensures Safe(p, env, s, LatchItems(mem, e))
  {
    hide Inv, Permitted, Do;
    if Latches(mem, e) {
      var items := LatchItems(mem, e);
      var saved := Do(s, SaveJournal(Latched(mem)));
      RequireRecoverySafe(p, env, s);
      RequireRecoverySafe(p, env, saved);
      forall t | t in {s, saved} ensures Safe(p, env, t, [items[1]]) {
        SafeNil(p, env, t);
        SafeNil(p, env, Do(t, RequireRecovery));
        SafeConsIgnored(p, env, t, items[1], []);
        assert [items[1]] + [] == [items[1]];
      }
      SafeConsIgnored(p, env, s, items[0], [items[1]]);
      assert items == [items[0]] + [items[1]];
    } else {
      SafeNil(p, env, s);
    }
  }

  /** Whatever happens to the writes, every one that lands is permitted and leaves the invariant. */
  lemma {:induction false} ExecuteSafe(p: Policy, env: Env, s: State, items: seq<Item>, io: seq<Io>)
    requires Safe(p, env, s, items)
    ensures AllSafe(p, env, s, Execute(items, io).writes)
    decreases |io|, |items|
  {
    hide Inv, Permitted, Do, LatchSafe;
    if items != [] && io != [] {
      var item := items[0];
      var next := Do(s, item.write);
      var effect := if io[0].Lost? then [] else [item.write];
      var after := if io[0].Lost? then s else next;
      var rest := if io[0].Done? || item.fault.Ignored? then items[1..]
                  else if item.fault.Returning? then []
                  else if item.fault.Rescued? then Rescue(item.fault, io[0]).items
                  else LatchItems(item.mem, Failure);
      if !io[0].Done? && item.fault.Latching? {
        LatchItemsSafe(p, env, after, item.mem, Failure);
      }
      ExecuteSafe(p, env, after, rest, io[1..]);
      var tail := Execute(rest, io[1..]).writes;
      assert Execute(items, io).writes == effect + tail;
      if effect == [] {
        assert effect + tail == tail;
      } else {
        assert (effect + tail)[1..] == tail;
      }
    }
  }

  /** Every write is permitted where it happens, and the invariant holds after each of them. */
  ghost predicate AllSafe(p: Policy, env: Env, s: State, ws: seq<Write>)
    decreases |ws|
  {
    && Inv(p, env, s)
    && (ws != [] ==> Permitted(p, s, ws[0]) && AllSafe(p, env, Do(s, ws[0]), ws[1..]))
  }

  lemma {:induction false} AllSafeConcat(p: Policy, env: Env, s: State, a: seq<Write>, b: seq<Write>)
    requires AllSafe(p, env, s, a) && AllSafe(p, env, DoAll(s, a), b)
    ensures AllSafe(p, env, s, a + b) && DoAll(s, a + b) == DoAll(DoAll(s, a), b)
    decreases |a|
  {
    hide Inv, Permitted, Do;
    if a == [] {
      assert a + b == b;
    } else {
      assert (a + b)[1..] == a[1..] + b;
      AllSafeConcat(p, env, Do(s, a[0]), a[1..], b);
    }
  }

  lemma {:induction false} AllSafeEnds(p: Policy, env: Env, s: State, ws: seq<Write>)
    requires AllSafe(p, env, s, ws)
    ensures Inv(p, env, DoAll(s, ws)) && DoAll(s, ws).disk == ApplyAll(s.disk, ws)
    decreases |ws|
  {
    if ws != [] {
      AllSafeEnds(p, env, Do(s, ws[0]), ws[1..]);
    }
  }

  lemma {:induction false} DoAllDisk(s: State, ws: seq<Write>)
    ensures DoAll(s, ws).disk == ApplyAll(s.disk, ws)
    decreases |ws|
  {
    if ws != [] {
      DoAllDisk(Do(s, ws[0]), ws[1..]);
    }
  }

  lemma {:induction false} SafeConcat(p: Policy, env: Env, s: State, a: seq<Item>, b: seq<Item>)
    requires Safe(p, env, s, a)
    requires forall i | 0 <= i < |a| :: !a[i].fault.Ignored?
    requires Safe(p, env, DoAll(s, Writes(a)), b)
    ensures Safe(p, env, s, a + b)
    decreases |a|
  {
    hide Inv, Permitted, LatchSafe, Do;
    if a == [] {
      assert a + b == b;
      assert Writes(a) == [];
    } else {
      assert (a + b)[1..] == a[1..] + b && (a + b)[0] == a[0];
      assert Writes(a)[1..] == Writes(a[1..]) && Writes(a)[0] == a[0].write;
      var next := Do(s, a[0].write);
      assert DoAll(s, Writes(a)) == DoAll(next, Writes(a[1..]));
      SafeConcat(p, env, next, a[1..], b);
    }
  }

  /** A failed write of a settled journal latches nothing. */
  lemma SettledLatch(p: Policy, env: Env, s: State, mem: Journal)
    requires Terminal(mem.phase)
    ensures LatchSafe(p, env, s, mem, Failure)
  {
  }

  /** Writes the invariant does not look at. */
  lemma InertWrite(p: Policy, env: Env, s: State, w: Write)
    requires Inv(p, env, s)
    requires || w.ClearMarks? || w.CreatePending? || w.RequireRecovery?
             || ((w.PutMark? || w.PointCandidate?) && Permitted(p, s, w))
    ensures Permitted(p, s, w) && Inv(p, env, Do(s, w)) && Do(s, w).hist == s.hist
    ensures Do(s, w).disk.journal == s.disk.journal && Do(s, w).disk.active == s.disk.active
  {
    hide BarrierInv, StreakInv, FailedInv, TruthInv, AcceptedInv, Lawful, Chain;
  }

  lemma RemovePendingSafe(p: Policy, env: Env, s: State)
    requires Inv(p, env, s) && Terminal(s.disk.journal.phase)
    ensures Permitted(p, s, RemovePending) && Inv(p, env, Do(s, RemovePending))
  {
    hide BarrierInv, StreakInv, FailedInv, TruthInv, AcceptedInv, Lawful, Chain;
  }

  lemma TidySafe(p: Policy, env: Env, s: State, mem: Journal)
    requires Inv(p, env, s) && s.disk.journal.phase == mem.phase
    ensures Safe(p, env, s, Runtime.Tidy(mem))
  {
    hide Inv, Permitted, Do, Safe;
    if Terminal(mem.phase) {
      var item := Download.Leave(RemovePending, mem);
      RemovePendingSafe(p, env, s);
      SafeNil(p, env, Do(s, RemovePending));
      SafeCons(p, env, s, item, []);
      assert [item] + [] == [item];
    } else {
      SafeNil(p, env, s);
    }
  }
}
