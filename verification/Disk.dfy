/**
 * Everything the updater keeps on disk, its durable writes, and what an unreliable machine makes
 * of a list of them. A command is a list of writes decided from the disk and the host's answers;
 * losing power after any of them is an `io` script that ends there.
 */
module Disks {
  import opened LocalPolicy
  import opened Trust
  import opened Journals

  datatype Mark = PreflightMark | StopMark | RestartMark

  datatype Disk = Disk(
    journal: Journal,
    active: Digest,
    candidate: Digest,
    pending: bool,
    latched: bool,
    marks: set<Mark>,
    objects: set<Digest>,
    generations: map<string, Inventory>,
    rootFiles: set<Root>)

  datatype Write =
    | SaveJournal(state: Journal)
    | PointActive(digest: Digest)
    | PointCandidate(digest: Digest)
    | CreatePending
    | RemovePending
    | RequireRecovery
    | PutMark(mark: Mark)
    | ClearMarks
    | PutObject(digest: Digest)
    | DropObject(digest: Digest)
    | MakeGeneration(id: string)
    | FillGeneration(id: string, files: Inventory)
    | DropGeneration(id: string)
    | PutRoot(root: Root)

  function Apply(d: Disk, w: Write): Disk {
    match w
    case SaveJournal(state) => d.(journal := Snapshot(state))
    case PointActive(digest) => d.(active := digest)
    case PointCandidate(digest) => d.(candidate := digest)
    case CreatePending => d.(pending := true)
    case RemovePending => d.(pending := false)
    case RequireRecovery => d.(latched := true)
    case PutMark(mark) => d.(marks := d.marks + {mark})
    case ClearMarks => d.(marks := {})
    case PutObject(digest) => d.(objects := d.objects + {digest})
    case DropObject(digest) => d.(objects := d.objects - {digest})
    case MakeGeneration(id) => d.(generations := d.generations[id := map[]])
    case FillGeneration(id, files) => d.(generations := d.generations[id := files])
    case DropGeneration(id) => d.(generations := d.generations - {id})
    case PutRoot(root) => d.(rootFiles := d.rootFiles + {root})
  }

  function ApplyAll(d: Disk, writes: seq<Write>): Disk
    decreases |writes|
  {
    if writes == [] then d else ApplyAll(Apply(d, writes[0]), writes[1..])
  }

  lemma {:induction false} ApplyAllConcat(d: Disk, a: seq<Write>, b: seq<Write>)
    ensures ApplyAll(d, a + b) == ApplyAll(ApplyAll(d, a), b)
    decreases |a|
  {
    if a == [] {
      assert a + b == b;
    } else {
      assert (a + b)[1..] == a[1..] + b;
      ApplyAllConcat(Apply(d, a[0]), a[1..], b);
    }
  }

  // ---- plans ------------------------------------------------------------------------------------

  /**
   * What an error from this write does: `latch_failure`, nothing, leave the command at once, or go on
   * with what was decided after the error and fail then.
   */
  datatype OnFault = Latching | Ignored | Returning | Rescued(lost: Plan, torn: Plan)

  /** One durable write, with the journal in memory when it is attempted. */
  datatype Item = Item(write: Write, mem: Journal, fault: OnFault)

  datatype End = Finished | Failed(error: Error)

  datatype Plan = Plan(items: seq<Item>, mem: Journal, end: End)

  function Stop(mem: Journal, error: Error): Plan {
    Plan([], mem, Failed(error))
  }

  function Pass(mem: Journal): Plan {
    Plan([], mem, Finished)
  }

  /** A durable step of the activation machine: its errors latch operator recovery. */
  function Step(write: Write, mem: Journal): Item {
    Item(write, mem, Latching)
  }

  function Save(mem: Journal): Item {
    Step(SaveJournal(mem), mem)
  }

  function Before(items: seq<Item>, rest: Plan): Plan {
    rest.(items := items + rest.items)
  }

  function Writes(items: seq<Item>): (ws: seq<Write>)
    ensures |ws| == |items|
    ensures forall i :: 0 <= i < |items| ==> ws[i] == items[i].write
  {
    seq(|items|, i requires 0 <= i < |items| => items[i].write)
  }

  /** The disk once every item has been written. */
  function Written(d: Disk, items: seq<Item>): Disk {
    ApplyAll(d, Writes(items))
  }

  /** `rest` is decided by the disk and journal that `first` leaves, unless `first` failed. */
  function Then(first: Plan, rest: Plan): Plan {
    if first.end.Failed? then first else Before(first.items, rest)
  }

  function LatchItems(mem: Journal, error: Error): seq<Item> {
    if Latches(mem, error) then
      [Item(SaveJournal(Latched(mem)), Latched(mem), Ignored), Item(RequireRecovery, Latched(mem), Ignored)]
    else []
  }

  // ---- execution on an unreliable machine ---------------------------------------------------------

  /** `Torn`: the effect reached the disk but an error was reported. */
  datatype Io = Done | Lost | Torn

  datatype Outcome = Outcome(writes: seq<Write>, io: seq<Io>, off: bool, failed: bool)

  function Rescue(fault: OnFault, io: Io): Plan
    requires fault.Rescued?
  {
    if io.Lost? then fault.lost else fault.torn
  }

  function Prepend(ws: seq<Write>, o: Outcome): Outcome {
    o.(writes := ws + o.writes)
  }

  function Execute(items: seq<Item>, io: seq<Io>): Outcome
    decreases |io|, |items|
  {
    if items == [] then Outcome([], io, false, false)
    else if io == [] then Outcome([], [], true, false)
    else
      var effect := if io[0].Lost? then [] else [items[0].write];
      if io[0].Done? || items[0].fault.Ignored? then Prepend(effect, Execute(items[1..], io[1..]))
      else if items[0].fault.Returning? then Outcome(effect, io[1..], false, true)
      else if items[0].fault.Rescued? then
        Prepend(effect, Execute(Rescue(items[0].fault, io[0]).items, io[1..])).(failed := true)
      else Prepend(effect, Execute(LatchItems(items[0].mem, Failure), io[1..])).(failed := true)
  }
}
