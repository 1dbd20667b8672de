/** A plan carried out on an unreliable machine, step by step, as the updater's methods do it. */
module Machines {
  import opened Journals
  import opened Disks
  import Runtime

  /** Success, an error of the updater's own, a failed write, or no power. */
  datatype Ended = Fine | Fault(error: Error) | Broken | PowerOff

  /** Where carrying out a plan stopped: disk, journal in memory, what is left of the machine's luck. */
  datatype Ran = Ran(disk: Disk, mem: Journal, io: seq<Io>, end: Ended)

  function Ending(end: End): Ended {
    if end.Finished? then Fine else Fault(end.error)
  }

  /** A failed command stays failed, however well the rest of it goes. */
  function Spoiled(r: Ran): Ran {
    if r.end.Fine? then r.(end := Broken) else r
  }

  /** `?` after every write: the first error leaves with the journal then in memory, or is rescued. */
  function Carry(d: Disk, plan: Plan, io: seq<Io>): Ran
    decreases |io|
  {
    if plan.items == [] then Ran(d, plan.mem, io, Ending(plan.end))
    else if io == [] then Ran(d, plan.items[0].mem, [], PowerOff)
    else
      var item := plan.items[0];
      var next := if io[0].Lost? then d else Apply(d, item.write);
      if io[0].Done? then Carry(next, plan.(items := plan.items[1..]), io[1..])
      else if item.fault.Rescued? then Spoiled(Carry(next, Rescue(item.fault, io[0]), io[1..]))
      else Ran(next, item.mem, io[1..], Broken)
  }

  lemma CarryCons(d: Disk, item: Item, rest: Plan, io: seq<Io>)
    requires !item.fault.Rescued?
    ensures Carry(d, Before([item], rest), io)
            == if io == [] then Ran(d, item.mem, [], PowerOff)
               else if io[0].Done? then Carry(Apply(d, item.write), rest, io[1..])
               else Ran(if io[0].Lost? then d else Apply(d, item.write), item.mem, io[1..], Broken)
  {
    assert ([item] + rest.items)[1..] == rest.items;
  }

  /** A second plan decided after the first has finished. */
  lemma {:induction false} CarryThen(d: Disk, first: Plan, rest: Plan, io: seq<Io>)
    requires first.end.Finished?
    ensures var r := Carry(d, first, io);
            Carry(d, Before(first.items, rest), io) == if r.end.Fine? then Carry(r.disk, rest, r.io) else r
    decreases |first.items|
  {
    if first.items == [] {
      assert [] + rest.items == rest.items;
    } else {
      assert (first.items + rest.items)[1..] == first.items[1..] + rest.items;
      if io != [] && io[0].Done? {
        CarryThen(Apply(d, first.items[0].write), first.(items := first.items[1..]), rest, io[1..]);
      }
    }
  }

  /** How a plan ends by itself only matters once all its writes are done. */
  lemma {:induction false} CarryEnds(d: Disk, plan: Plan, io: seq<Io>)
    ensures var r := Carry(d, plan.(end := Finished), io);
            && Carry(d, plan, io) == (if r.end.Fine? then r.(end := Ending(plan.end)) else r)
            && (r.end.PowerOff? ==> r.io == [])
            && (r.end.Fine? ==> r.disk == Written(d, plan.items) && r.mem == plan.mem)
            && (AllPlain(plan.items) ==> !r.end.Fault?)
    decreases |io|
  {
    if plan.items == [] {
      assert Writes([]) == [];
    } else if io != [] {
      var item := plan.items[0];
      if io[0].Done? {
        assert Writes(plan.items) == [item.write] + Writes(plan.items[1..]);
        CarryEnds(Apply(d, item.write), plan.(items := plan.items[1..]), io[1..]);
        assert Written(d, plan.items) == Written(Apply(d, item.write), plan.items[1..]);
      } else if item.fault.Rescued? {
        CarryEnds(if io[0].Lost? then d else Apply(d, item.write), Rescue(item.fault, io[0]), io[1..]);
      }
    }
  }

  predicate AllPlain(items: seq<Item>) {
    forall i | 0 <= i < |items| :: !items[i].fault.Rescued?
  }

  /** Disk and remaining luck after a whole script, faults and latches included. */
  datatype Result = Result(disk: Disk, io: seq<Io>, off: bool, failed: bool)

  function Did(d: Disk, items: seq<Item>, io: seq<Io>): Result {
    var o := Execute(items, io);
    Result(ApplyAll(d, o.writes), o.io, o.off, o.failed)
  }

  lemma DidNil(d: Disk, io: seq<Io>)
    ensures Did(d, [], io) == Result(d, io, false, false)
  {
  }

  lemma DidCons(d: Disk, item: Item, rest: seq<Item>, io: seq<Io>)
    ensures Did(d, [item] + rest, io)
            == if io == [] then Result(d, [], true, false)
               else
                 var next := if io[0].Lost? then d else Apply(d, item.write);
                 if io[0].Done? || item.fault.Ignored? then Did(next, rest, io[1..])
                 else if item.fault.Returning? then Result(next, io[1..], false, true)
                 else if item.fault.Rescued? then Did(next, Rescue(item.fault, io[0]).items, io[1..]).(failed := true)
                 else Did(next, LatchItems(item.mem, Failure), io[1..]).(failed := true)
  {
    var items := [item] + rest;
    assert items[1..] == rest && items[0] == item;
    if io != [] {
      var effect := if io[0].Lost? then [] else [item.write];
      var tail := if io[0].Done? || item.fault.Ignored? then Execute(rest, io[1..]).writes
                  else if item.fault.Returning? then []
                  else if item.fault.Rescued? then Execute(Rescue(item.fault, io[0]).items, io[1..]).writes
                  else Execute(LatchItems(item.mem, Failure), io[1..]).writes;
      assert Execute(items, io).writes == effect + tail;
      ApplyAllConcat(d, effect, tail);
      assert ApplyAll(d, effect) == if io[0].Lost? then d else Apply(d, item.write) by {
        if effect != [] {
          assert ApplyAll(d, effect) == ApplyAll(Apply(d, item.write), effect[1..]);
        }
      }
    }
  }

  function ErrorOf(end: Ended): Error {
    if end.Fault? then end.error else Failure
  }

  predicate AllLatching(items: seq<Item>) {
    forall i | 0 <= i < |items| :: items[i].fault.Latching?
  }

  /** No error of these writes latches or is ignored, however the command is rescued. */
  predicate AllLeaving(items: seq<Item>)
    decreases items
  {
    forall i | 0 <= i < |items| :: Leaving(items[i])
  }

  predicate Leaving(item: Item)
    decreases item
  {
    || item.fault.Returning?
    || (item.fault.Rescued? && AllLeaving(item.fault.lost.items) && AllLeaving(item.fault.torn.items))
  }

  /** A settled plan is the plan carried out, followed by the tidying or the latch. */
  lemma {:induction false} DidSettled(d: Disk, plan: Plan, io: seq<Io>)
    requires AllLatching(plan.items)
    ensures var r := Carry(d, plan, io);
            var script := Runtime.Settled(plan);
            var did := Did(d, script.items, io);
            match r.end
            case PowerOff => did == Result(r.disk, [], true, false)
            case Fine => did == Did(r.disk, Runtime.Tidy(r.mem), r.io) && !script.failed
            case _ =>
              var latched := Did(r.disk, LatchItems(r.mem, ErrorOf(r.end)), r.io);
              did == latched.(failed := did.failed) && (script.failed || did.failed)
    decreases |plan.items|
  {
    var tail := if plan.end.Finished? then Runtime.Tidy(plan.mem) else LatchItems(plan.mem, plan.end.error);
    assert Runtime.Settled(plan).items == plan.items + tail;
    if plan.items == [] {
      assert [] + tail == tail;
    } else {
      var item := plan.items[0];
      var rest := plan.(items := plan.items[1..]);
      assert plan.items + tail == [item] + (rest.items + tail);
      assert Runtime.Settled(rest).items == rest.items + tail;
      DidCons(d, item, rest.items + tail, io);
      if io != [] && io[0].Done? {
        DidSettled(Apply(d, item.write), rest, io[1..]);
      }
    }
  }

  /** Writes whose errors fail the command, before anything else. */
  lemma {:induction false} DidLeaving(d: Disk, plan: Plan, tail: seq<Item>, io: seq<Io>)
    requires AllLeaving(plan.items)
    ensures var r := Carry(d, plan.(end := Finished), io);
            var did := Did(d, plan.items + tail, io);
            match r.end
            case PowerOff => did == Result(r.disk, [], true, did.failed)
            case Fine => did == Did(r.disk, tail, r.io)
            case _ => did == Result(r.disk, r.io, false, true)
    decreases |io|, 2
  {
    if plan.items == [] {
      assert [] + tail == tail;
    } else {
      var item := plan.items[0];
      var rest := plan.(items := plan.items[1..]);
      assert plan.items + tail == [item] + (rest.items + tail);
      DidCons(d, item, rest.items + tail, io);
      assert Leaving(item);
      if io != [] && io[0].Done? {
        DidLeaving(Apply(d, item.write), rest, tail, io[1..]);
      } else if io != [] && item.fault.Rescued? {
        DidRescued(if io[0].Lost? then d else Apply(d, item.write), Rescue(item.fault, io[0]), io[1..]);
      }
    }
  }

  lemma {:induction false} DidRescued(d: Disk, plan: Plan, io: seq<Io>)
    requires AllLeaving(plan.items)
    ensures var r := Spoiled(Carry(d, plan, io));
            var did := Did(d, plan.items, io).(failed := true);
            if r.end.PowerOff? then did == Result(r.disk, [], true, true) else did == Result(r.disk, r.io, false, true)
    decreases |io|, 3
  {
    DidLeaving(d, plan, [], io);
    CarryEnds(d, plan, io);
    assert plan.items + [] == plan.items;
    var r := Carry(d, plan.(end := Finished), io);
    DidNil(r.disk, r.io);
  }
}
