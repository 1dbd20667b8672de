/** Collecting before a fetch: nothing the next load looks at disappears, everything else does. */
module Collects {
  import opened Options
  import opened LocalPolicy
  import opened Trust
  import opened Journals
  import opened Disks
  import opened Download
  import opened Runtime
  import opened Worlds
  import opened Safety
  import opened Fetches

  /** Writes that only remove what the journal does not name. */
  ghost predicate Sweeps(p: Policy, env: Env, s: State, j: Journal, items: seq<Item>) {
    && Safe(p, env, s, items) && AllReturning(items)
    && var t := After(s, items);
       && Inv(p, env, t) && Holding(p, t, j) && t.hist == s.hist
       && t.disk == s.disk.(generations := t.disk.generations, objects := t.disk.objects)
  }

  /** Dropping an unpinned object or a stale generation keeps everything `load` verifies. */
  lemma DropInert(p: Policy, env: Env, s: State, w: Write)
    requires Inv(p, env, s) && Terminal(s.disk.journal.phase)
    requires (w.DropObject? && w.digest !in Pins(s.disk.journal))
             || (w.DropGeneration? && Some(w.id) != s.disk.journal.cache)
    ensures Permitted(p, s, w) && Inv(p, env, Do(s, w))
  {
    hide BarrierInv, StreakInv, FailedInv, TruthInv, AcceptedInv, Lawful, Chain;
  }

  lemma SweepsNil(p: Policy, env: Env, s: State, j: Journal)
    requires Inv(p, env, s) && Holding(p, s, j)
    ensures Sweeps(p, env, s, j, [])
  {
    hide Inv, Holding;
    NothingSafe(p, env, s);
  }

  lemma SweepsCons(p: Policy, env: Env, s: State, j: Journal, w: Write, rest: seq<Item>)
    requires Inv(p, env, s) && Holding(p, s, j)
    requires (w.DropObject? && w.digest !in Pins(s.disk.journal))
             || (w.DropGeneration? && Some(w.id) != s.disk.journal.cache)
    requires Inv(p, env, Do(s, w)) && Holding(p, Do(s, w), j) ==> Sweeps(p, env, Do(s, w), j, rest)
    ensures Sweeps(p, env, s, j, [Leave(w, j)] + rest)
  {
    var item := Leave(w, j);
    assert Terminal(s.disk.journal.phase) && Holding(p, Do(s, w), j) by {
      hide Inv, Grounded;
    }
    hide Inv, Permitted, Grounded, LatchSafe, Pins;
    DropInert(p, env, s, w);
    SafeCons(p, env, s, item, rest);
    AfterConcat(s, [item], rest);
    AfterOne(s, item);
  }

  lemma {:induction false} GenerationsSweep(p: Policy, env: Env, s: State, j: Journal, listing: seq<string>)
    requires Inv(p, env, s) && Holding(p, s, j)
    ensures Sweeps(p, env, s, j, GenerationItems(j, listing))
    decreases |listing|
  {
    hide Inv, Pins, Sweeps, Do;
    if listing == [] {
      hide Holding;
      SweepsNil(p, env, s, j);
    } else if Some(listing[0]) == j.cache {
      hide Holding;
      GenerationsSweep(p, env, s, j, listing[1..]);
    } else {
      assert s.disk.journal == j;
      hide Holding;
      var w := DropGeneration(listing[0]);
      if Inv(p, env, Do(s, w)) && Holding(p, Do(s, w), j) {
        GenerationsSweep(p, env, Do(s, w), j, listing[1..]);
      }
      SweepsCons(p, env, s, j, w, GenerationItems(j, listing[1..]));
    }
  }

  lemma {:induction false} ObjectsSweep(p: Policy, env: Env, s: State, j: Journal, listing: seq<Digest>)
    requires Inv(p, env, s) && Holding(p, s, j)
    ensures Sweeps(p, env, s, j, ObjectItems(j, listing))
    decreases |listing|
  {
    hide Inv, Pins, Sweeps, Do;
    if listing == [] {
      hide Holding;
      SweepsNil(p, env, s, j);
    } else if listing[0] in Pins(j) {
      hide Holding;
      ObjectsSweep(p, env, s, j, listing[1..]);
    } else {
      assert s.disk.journal == j;
      hide Holding;
      var w := DropObject(listing[0]);
      if Inv(p, env, Do(s, w)) && Holding(p, Do(s, w), j) {
        ObjectsSweep(p, env, Do(s, w), j, listing[1..]);
      }
      SweepsCons(p, env, s, j, w, ObjectItems(j, listing[1..]));
    }
  }

  lemma SweepsConcat(p: Policy, env: Env, s: State, j: Journal, a: seq<Item>, b: seq<Item>)
    requires Sweeps(p, env, s, j, a) && Sweeps(p, env, After(s, a), j, b)
    ensures Sweeps(p, env, s, j, a + b)
  {
    hide Inv, Holding, Safe;
    AfterConcat(s, a, b);
    hide After;
    SweepSafe(p, env, s, j, a, b);
  }

  lemma SweepSafe(p: Policy, env: Env, s: State, j: Journal, a: seq<Item>, b: seq<Item>)
    requires Sweeps(p, env, s, j, a) && Safe(p, env, After(s, a), b)
    ensures Safe(p, env, s, a + b)
  {
    hide Inv, Holding, Safe;
    SafeConcat(p, env, s, a, b);
  }

  lemma CollectSweeps(p: Policy, env: Env, s: State, j: Journal, sweep: Sweep)
    requires Inv(p, env, s) && Holding(p, s, j)
    ensures Sweeps(p, env, s, j, CollectPlan(j, sweep).items)
    ensures CollectPlan(j, sweep).end.Finished? && CollectPlan(j, sweep).mem == j
  {
    assert Terminal(j.phase);
    hide Inv, Holding, GenerationItems, ObjectItems;
    GenerationsSweep(p, env, s, j, sweep.generations);
    var a := GenerationItems(j, sweep.generations);
    var t := After(s, a);
    assert Inv(p, env, t) && Holding(p, t, j);
    hide Sweeps, After;
    ObjectsSweep(p, env, t, j, sweep.objects);
    SweepsConcat(p, env, s, j, a, ObjectItems(j, sweep.objects));
  }

  // ---- collecting and fetching ------------------------------------------------------------------------

  /** What a finished download leaves: newer trust in memory and on disk, and the release stored. */
  ghost predicate Downloaded(p: Policy, env: Env, s: State, j: Journal, plan: Plan) {
    var t := After(s, plan.items);
    && Inv(p, env, t) && Holding(p, t, plan.mem) && t.hist == s.hist
    && Newer(j, plan.mem) && Forward(j, plan.mem)
    && Candidate(plan.mem).digest in t.disk.objects
    && t.disk.active == s.disk.active && t.disk.marks == s.disk.marks && t.disk.pending == s.disk.pending
    && t.disk.latched == s.disk.latched
  }

  lemma FetchedPlanSafe(p: Policy, env: Env, s: State, j: Journal, sweep: Sweep, f: Fetch)
    requires ValidPolicy(p) && Inv(p, env, s) && Holding(p, s, j)
    ensures var plan := FetchedPlan(p, s.disk, j, sweep, f);
            && Safe(p, env, s, plan.items) && AllReturning(plan.items)
            && (plan.end.Finished? ==> Downloaded(p, env, s, j, plan))
  {
    hide Inv, Holding, ValidPolicy;
    var collected := CollectPlan(j, sweep);
    CollectSweeps(p, env, s, j, sweep);
    var t := After(s, collected.items);
    AfterDisk(s, collected.items);
    var fetched := FetchPlan(p, t.disk, j, f);
    assert Inv(p, env, t) && Holding(p, t, j) && t.hist == s.hist;
    assert t.disk == s.disk.(generations := t.disk.generations, objects := t.disk.objects);
    hide CollectPlan, FetchPlan, Safe;
    FetchCarries(p, env, t, j, f);
    assert AllReturning(collected.items);
    AfterConcat(s, collected.items, fetched.items);
    hide After;
    SweepSafe(p, env, s, j, collected.items, fetched.items);
    if fetched.end.Finished? {
      DownloadedFrom(p, env, t, j, fetched);
    }
  }

  lemma DownloadedFrom(p: Policy, env: Env, t: State, j: Journal, plan: Plan)
    requires Fetched(p, env, t, j, plan)
    ensures Downloaded(p, env, t, j, plan)
  {
    hide Inv, Holding, Safe, Newer, Forward, After, Leading;
  }

  // ---- what is left -------------------------------------------------------------------------------------

  lemma WrittenCons(d: Disk, w: Write, j: Journal, rest: seq<Item>)
    ensures Written(d, [Leave(w, j)] + rest) == Written(Apply(d, w), rest)
  {
    var items := [Leave(w, j)] + rest;
    assert Writes(items) == [w] + Writes(rest);
    assert ([w] + Writes(rest))[1..] == Writes(rest);
    hide Apply;
  }

  function Stale(j: Journal, listing: seq<string>): set<string> {
    set g | g in listing && Some(g) != j.cache
  }

  lemma {:induction false} GenerationsGone(d: Disk, j: Journal, listing: seq<string>)
    ensures Written(d, GenerationItems(j, listing)) == d.(generations := d.generations - Stale(j, listing))
    decreases |listing|
  {
    if listing == [] {
      assert Writes([]) == [];
      assert d.generations - Stale(j, []) == d.generations;
    } else {
      var rest := listing[1..];
      assert forall g :: g in listing <==> g == listing[0] || g in rest;
      if Some(listing[0]) == j.cache {
        GenerationsGone(d, j, rest);
        assert Stale(j, listing) == Stale(j, rest);
      } else {
        var next := Apply(d, DropGeneration(listing[0]));
        GenerationsGone(next, j, rest);
        WrittenCons(d, DropGeneration(listing[0]), j, GenerationItems(j, rest));
        assert Stale(j, listing) == {listing[0]} + Stale(j, rest);
        assert next.generations - Stale(j, rest) == d.generations - Stale(j, listing);
      }
    }
  }

  function Unpinned(j: Journal, listing: seq<Digest>): set<Digest> {
    set o | o in listing && o !in Pins(j)
  }

  lemma {:induction false} ObjectsGone(d: Disk, j: Journal, listing: seq<Digest>)
    ensures Written(d, ObjectItems(j, listing)) == d.(objects := d.objects - Unpinned(j, listing))
    decreases |listing|
  {
    hide Pins;
    if listing == [] {
      assert Writes([]) == [];
      assert d.objects - Unpinned(j, []) == d.objects;
    } else {
      var rest := listing[1..];
      assert forall o :: o in listing <==> o == listing[0] || o in rest;
      if listing[0] in Pins(j) {
        ObjectsGone(d, j, rest);
        assert Unpinned(j, listing) == Unpinned(j, rest);
      } else {
        var next := Apply(d, DropObject(listing[0]));
        ObjectsGone(next, j, rest);
        WrittenCons(d, DropObject(listing[0]), j, ObjectItems(j, rest));
        assert Unpinned(j, listing) == {listing[0]} + Unpinned(j, rest);
        assert next.objects - Unpinned(j, rest) == d.objects - Unpinned(j, listing);
      }
    }
  }

  /** Installed, newest seen, or part of the last transaction. */
  predicate Referred(j: Journal, o: Digest) {
    || o == j.installed.digest || o == j.seenDigest
    || (j.tx.Some? && (o == j.tx.value.from.digest || o == j.tx.value.to.digest))
  }

  lemma CollectLeaves(p: Policy, d: Disk, sweep: Sweep)
    requires Terminal(d.journal.phase)
    requires forall o :: o in sweep.objects <==> o in d.objects
    requires forall g :: g in sweep.generations <==> g in d.generations
    ensures var d' := Written(d, CollectPlan(d.journal, sweep).items);
            && d' == d.(objects := d'.objects, generations := d'.generations)
            && d'.objects == d.objects * Pins(d.journal)
            && d'.generations == (map g | g in d.generations && Some(g) == d.journal.cache :: d.generations[g])
            && (Loads(p, d') <==> Loads(p, d))
  {
    var j := d.journal;
    var a, b := GenerationItems(j, sweep.generations), ObjectItems(j, sweep.objects);
    GenerationsGone(d, j, sweep.generations);
    var d1 := Written(d, a);
    ObjectsGone(d1, j, sweep.objects);
    assert Writes(a + b) == Writes(a) + Writes(b);
    ApplyAllConcat(d, Writes(a), Writes(b));
    var d' := Written(d1, b);
    assert d'.objects == d.objects * Pins(d.journal);
    assert d'.generations == (map g | g in d.generations && Some(g) == d.journal.cache :: d.generations[g]);
    assert RootsStored(d') == RootsStored(d) && CacheStored(d') == CacheStored(d) && ObjectsStored(d') == ObjectsStored(d) by {
      hide Written, GenerationItems, ObjectItems;
    }
  }

  /**
   * Exactly what collection leaves, whatever the order of the listings: the pinned objects and the
   * current generation. Whether the disk loads is unaffected.
   */
  lemma CollectExact(p: Policy, d: Disk, sweep: Sweep)
    requires Terminal(d.journal.phase)
    requires forall o :: o in sweep.objects <==> o in d.objects
    requires forall g :: g in sweep.generations <==> g in d.generations
    ensures var d' := Written(d, CollectPlan(d.journal, sweep).items);
            && d' == d.(objects := d'.objects, generations := d'.generations)
            && (forall o :: o in d'.objects <==> o in d.objects && Referred(d.journal, o))
            && (forall g :: g in d'.generations <==> g in d.generations && Some(g) == d.journal.cache)
            && (forall g | g in d'.generations :: d'.generations[g] == d.generations[g])
            && (Loads(p, d') <==> Loads(p, d))
  {
    hide Loads, Written, CollectPlan;
    CollectLeaves(p, d, sweep);
  }
}
