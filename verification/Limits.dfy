/** Fitting a snapshot into the shared wire limits by dropping disks from the end of its list. */
module WireLimits {
  import opened Text

  const MAX_SNAPSHOT_DISKS := 64
  const MAX_METRICS_FRAME_BYTES := 64 * 1024
  const MAX_SNAPSHOT_STRING_BYTES := 256
  const WIRE_ENVELOPE_RESERVE_BYTES := 256
  const BUDGET := MAX_METRICS_FRAME_BYTES - WIRE_ENVELOPE_RESERVE_BYTES

  datatype Disk = Disk(device: Bytes, mount: Bytes, fsType: Bytes, total: nat, available: nat, used: nat)

  /** `base` is the JSON size of the snapshot with an empty disk list. */
  datatype Snapshot = Snapshot(base: nat, disks: seq<Disk>)

  function Cut(d: Disk): Disk {
    d.(mount := Truncated(d.mount, MAX_SNAPSHOT_STRING_BYTES),
       device := Truncated(d.device, MAX_SNAPSHOT_STRING_BYTES),
       fsType := Truncated(d.fsType, MAX_SNAPSHOT_STRING_BYTES))
  }

  /** `retain_mut`: truncated, and only the first disk of each truncated mount point. */
  function Retained(disks: seq<Disk>, seen: set<Bytes>): seq<Disk> {
    if disks == [] then []
    else
      var d := Cut(disks[0]);
      (if d.mount in seen then [] else [d]) + Retained(disks[1..], seen + {d.mount})
  }

  function FirstDisks(disks: seq<Disk>): seq<Disk> {
    if |disks| <= MAX_SNAPSHOT_DISKS then disks else disks[..MAX_SNAPSHOT_DISKS]
  }

  // ---- sizes ------------------------------------------------------------------------------------------------

  function Total(size: Disk -> nat, disks: seq<Disk>): nat {
    if disks == [] then 0 else Total(size, disks[..|disks| - 1]) + size(disks[|disks| - 1])
  }

  /** The true JSON size: the elements and a comma between any two. */
  function JsonSize(size: Disk -> nat, s: Snapshot): nat {
    s.base + Total(size, s.disks) + (if s.disks == [] then 0 else |s.disks| - 1)
  }

  /** The longest prefix that fits, or nothing. */
  function Fitted(size: Disk -> nat, s: Snapshot): seq<Disk>
    decreases |s.disks|
  {
    if s.disks == [] || JsonSize(size, s) <= BUDGET then s.disks
    else Fitted(size, s.(disks := s.disks[..|s.disks| - 1]))
  }

  lemma {:induction false} FittedIsLongest(size: Disk -> nat, s: Snapshot)
    ensures Fitted(size, s) <= s.disks
    ensures Fitted(size, s) == [] || JsonSize(size, s.(disks := Fitted(size, s))) <= BUDGET
    ensures forall k: nat | |Fitted(size, s)| < k <= |s.disks| :: JsonSize(size, s.(disks := s.disks[..k])) > BUDGET
    decreases |s.disks|
  {
    if !(s.disks == [] || JsonSize(size, s) <= BUDGET) {
      var shorter := s.(disks := s.disks[..|s.disks| - 1]);
      FittedIsLongest(size, shorter);
      forall k: nat | |Fitted(size, s)| < k <= |s.disks| ensures JsonSize(size, s.(disks := s.disks[..k])) > BUDGET {
        if k < |s.disks| {
          assert shorter.disks[..k] == s.disks[..k];
        } else {
          assert s.disks[..k] == s.disks;
        }
      }
    }
  }

  // ---- what the retained list is --------------------------------------------------------------------------------

  /** Truncated disks whose mount points are new and all different. */
  predicate Distinct(disks: seq<Disk>, seen: set<Bytes>) {
    && (forall i | 0 <= i < |disks| :: Cut(disks[i]) == disks[i] && disks[i].mount !in seen)
    && (forall i, j | 0 <= i < j < |disks| :: disks[i].mount != disks[j].mount)
  }

  lemma DistinctCons(d: Disk, rest: seq<Disk>, seen: set<Bytes>)
    requires Cut(d) == d && d.mount !in seen && Distinct(rest, seen + {d.mount})
    ensures Distinct([d] + rest, seen)
  {
    hide Cut;
  }

  lemma {:induction false} RetainedDistinct(disks: seq<Disk>, seen: set<Bytes>)
    ensures Distinct(Retained(disks, seen), seen)
    decreases |disks|
  {
    if disks != [] {
      var d := Cut(disks[0]);
      var rest := Retained(disks[1..], seen + {d.mount});
      RetainedDistinct(disks[1..], seen + {d.mount});
      CutAgain(disks[0]);
      hide Cut;
      if d.mount in seen {
        assert seen + {d.mount} == seen;
        assert [] + rest == rest;
      } else {
        DistinctCons(d, rest, seen);
      }
    }
  }

  lemma CutAgain(d: Disk)
    ensures Cut(Cut(d)) == Cut(d)
  {
    TruncatedAgain(d.mount, MAX_SNAPSHOT_STRING_BYTES);
    TruncatedAgain(d.device, MAX_SNAPSHOT_STRING_BYTES);
    TruncatedAgain(d.fsType, MAX_SNAPSHOT_STRING_BYTES);
  }

  /** No mount point is lost: each is represented by the first disk that carried it. */
  lemma {:induction false} RetainedFirst(disks: seq<Disk>, seen: set<Bytes>, i: nat)
    requires i < |disks| && Cut(disks[i]).mount !in seen
    requires forall k | 0 <= k < i :: Cut(disks[k]).mount != Cut(disks[i]).mount
    ensures Cut(disks[i]) in Retained(disks, seen)
    decreases |disks|
  {
    if i > 0 {
      RetainedFirst(disks[1..], seen + {Cut(disks[0]).mount}, i - 1);
    }
  }

  lemma DistinctTail(disks: seq<Disk>, seen: set<Bytes>)
    requires Distinct(disks, seen) && disks != []
    ensures Cut(disks[0]) == disks[0] && disks[0].mount !in seen && Distinct(disks[1..], seen + {disks[0].mount})
  {
    hide Cut;
    assert forall i | 0 <= i < |disks[1..]| :: disks[1..][i] == disks[i + 1];
  }

  /** A list of truncated disks with different mount points passes unchanged. */
  lemma {:induction false} RetainedFixed(disks: seq<Disk>, seen: set<Bytes>)
    requires Distinct(disks, seen)
    ensures Retained(disks, seen) == disks
    decreases |disks|
  {
    hide Cut, Distinct;
    if disks != [] {
      DistinctTail(disks, seen);
      RetainedFixed(disks[1..], seen + {disks[0].mount});
    }
  }

  /** The whole transformation. */
  function WithinLimits(size: Disk -> nat, s: Snapshot): Snapshot {
    s.(disks := Fitted(size, s.(disks := FirstDisks(Retained(s.disks, {})))))
  }

  lemma {:induction false} PrefixFitted(size: Disk -> nat, s: Snapshot)
    ensures Fitted(size, s.(disks := Fitted(size, s))) == Fitted(size, s)
  {
    FittedIsLongest(size, s);
  }

  /** Fitting twice changes nothing more. */
  lemma FitAgain(size: Disk -> nat, s: Snapshot)
    ensures WithinLimits(size, WithinLimits(size, s)) == WithinLimits(size, s)
  {
    var kept := Retained(s.disks, {});
    var first := s.(disks := FirstDisks(kept));
    var fitted := WithinLimits(size, s);
    FittedIsLongest(size, first);
    RetainedDistinct(s.disks, {});
    assert fitted.disks <= kept;
    hide Retained, Fitted, Cut;
    assert forall i | 0 <= i < |fitted.disks| :: fitted.disks[i] == kept[i];
    RetainedFixed(fitted.disks, {});
    assert FirstDisks(fitted.disks) == fitted.disks;
    PrefixFitted(size, first);
  }

  /** What the receiver may rely on. */
  lemma FitMeetsLimits(size: Disk -> nat, s: Snapshot)
    ensures var r := WithinLimits(size, s);
            && |r.disks| <= MAX_SNAPSHOT_DISKS && r.base == s.base && |r.disks| <= |s.disks|
            && (r.disks != [] ==> JsonSize(size, r) <= BUDGET)
            && (forall i, j | 0 <= i < j < |r.disks| :: r.disks[i].mount != r.disks[j].mount)
            && (forall i | 0 <= i < |r.disks| ::
                  |r.disks[i].mount| <= 256 && |r.disks[i].device| <= 256 && |r.disks[i].fsType| <= 256)
  {
    var kept := Retained(s.disks, {});
    var first := s.(disks := FirstDisks(kept));
    FittedIsLongest(size, first);
    RetainedDistinct(s.disks, {});
    RetainedShorter(s.disks, {});
    var r := WithinLimits(size, s);
    assert forall i | 0 <= i < |r.disks| :: r.disks[i] == kept[i];
    forall i | 0 <= i < |r.disks|
      ensures |r.disks[i].mount| <= 256 && |r.disks[i].device| <= 256 && |r.disks[i].fsType| <= 256
    {
      assert Cut(kept[i]) == kept[i];
      CutoffFits(kept[i].mount, 256);
      CutoffFits(kept[i].device, 256);
      CutoffFits(kept[i].fsType, 256);
    }
  }

  lemma {:induction false} RetainedShorter(disks: seq<Disk>, seen: set<Bytes>)
    ensures |Retained(disks, seen)| <= |disks|
    decreases |disks|
  {
    if disks != [] {
      RetainedShorter(disks[1..], seen + {Cut(disks[0]).mount});
    }
  }

  // ---- what becomes of each disk ----------------------------------------------------------------------------------

  /** `text` keeps `k` characters of `s`, and one more would take more than 256 bytes. */
  predicate KeepsCharacters(text: Bytes, s: seq<nat>, k: nat) {
    && Scalars(s) && k <= |s| && text == Encode(s[..k]) && |text| <= 256
    && forall n: nat | k < n <= |s| :: |Encode(s[..n])| > 256
  }

  /** As many whole characters of `value` as fit 256 bytes. */
  ghost predicate Shortens(text: Bytes, value: Bytes) {
    && text <= value
    && forall s: seq<nat> | Scalars(s) && Encode(s) == value :: exists k: nat :: KeepsCharacters(text, s, k)
  }

  /** `d` reports the very disk `from`, with its own strings shortened. */
  ghost predicate Reports(d: Disk, from: Disk) {
    && d.total == from.total && d.available == from.available && d.used == from.used
    && Shortens(d.mount, from.mount) && Shortens(d.device, from.device) && Shortens(d.fsType, from.fsType)
  }

  lemma TruncatedShortens(value: Bytes)
    ensures Shortens(Truncated(value, MAX_SNAPSHOT_STRING_BYTES), value)
  {
    var text := Truncated(value, 256);
    CutoffFits(value, 256);
    forall s: seq<nat> | Scalars(s) && Encode(s) == value ensures exists k: nat :: KeepsCharacters(text, s, k) {
      var k := TruncatedIsLongest(s, 256);
      assert KeepsCharacters(text, s, k);
    }
  }

  lemma CutReports(d: Disk)
    ensures Reports(Cut(d), d)
  {
    hide Shortens;
    TruncatedShortens(d.mount);
    TruncatedShortens(d.device);
    TruncatedShortens(d.fsType);
  }

  /** Where the retained disks stood, from `at` on. */
  function Places(disks: seq<Disk>, at: nat, seen: set<Bytes>): seq<nat>
    requires at <= |disks|
    decreases |disks| - at
  {
    if at == |disks| then []
    else
      var mount := Cut(disks[at]).mount;
      (if mount in seen then [] else [at]) + Places(disks, at + 1, seen + {mount})
  }

  predicate Increasing(from: seq<nat>, low: nat, high: nat) {
    && (forall i | 0 <= i < |from| :: low <= from[i] < high)
    && forall i, k | 0 <= i < k < |from| :: from[i] < from[k]
  }

  /** The disk at `j` is retained, or an earlier one of its mount point was. */
  ghost predicate Placed(disks: seq<Disk>, from: seq<nat>, seen: set<Bytes>, j: nat)
    requires Increasing(from, 0, |disks|) && j < |disks|
  {
    || j in from
    || Cut(disks[j]).mount in seen
    || exists i :: 0 <= i < |from| && from[i] < j && Cut(disks[from[i]]).mount == Cut(disks[j]).mount
  }

  lemma {:induction false} RetainedPlaces(disks: seq<Disk>, at: nat, seen: set<Bytes>)
    requires at <= |disks|
    ensures var from, kept := Places(disks, at, seen), Retained(disks[at..], seen);
            && |from| == |kept| && Increasing(from, at, |disks|)
            && (forall i | 0 <= i < |from| :: kept[i] == Cut(disks[from[i]]))
    decreases |disks| - at
  {
    hide Cut, Retained;
    if at < |disks| {
      RetainedFirstOf(disks, at, seen);
      RetainedPlaces(disks, at + 1, seen + {Cut(disks[at]).mount});
    } else {
      assert disks[at..] == [];
      NoneRetained(seen);
    }
  }

  lemma NoneRetained(seen: set<Bytes>)
    ensures Retained([], seen) == []
  {
  }

  lemma PlacesIncrease(disks: seq<Disk>, at: nat, seen: set<Bytes>)
    requires at <= |disks|
    ensures Increasing(Places(disks, at, seen), at, |disks|) && Increasing(Places(disks, at, seen), 0, |disks|)
  {
    RetainedPlaces(disks, at, seen);
    hide Cut, Retained, Places;
  }

  lemma {:induction false} AllPlaced(disks: seq<Disk>, at: nat, seen: set<Bytes>, j: nat)
    requires at <= j < |disks|
    ensures Increasing(Places(disks, at, seen), 0, |disks|)
    ensures Placed(disks, Places(disks, at, seen), seen, j)
    decreases |disks| - at
  {
    hide Cut, Retained, Placed, Increasing;
    PlacesIncrease(disks, at, seen);
    var mount := Cut(disks[at]).mount;
    var from, later := Places(disks, at, seen), Places(disks, at + 1, seen + {mount});
    PlacesIncrease(disks, at + 1, seen + {mount});
    if mount in seen {
      assert seen + {mount} == seen;
      assert [] + later == later;
    }
    if j > at {
      AllPlaced(disks, at + 1, seen + {mount}, j);
      if mount !in seen {
        PlacedLater(disks, at, later, seen, j);
      }
    } else if mount in seen {
      PlacedSeen(disks, from, seen, at);
    } else {
      PlacedHere(disks, later, seen, at);
    }
  }

  lemma PlacedSeen(disks: seq<Disk>, from: seq<nat>, seen: set<Bytes>, at: nat)
    requires at < |disks| && Increasing(from, 0, |disks|) && Cut(disks[at]).mount in seen
    ensures Placed(disks, from, seen, at)
  {
    hide Cut;
  }

  lemma PlacedHere(disks: seq<Disk>, later: seq<nat>, seen: set<Bytes>, at: nat)
    requires at < |disks| && Increasing([at] + later, 0, |disks|)
    ensures Placed(disks, [at] + later, seen, at)
  {
    hide Cut;
    assert ([at] + later)[0] == at;
  }

  lemma PlacedLater(disks: seq<Disk>, at: nat, later: seq<nat>, seen: set<Bytes>, j: nat)
    requires at < j < |disks| && Increasing(later, at + 1, |disks|)
    requires Placed(disks, later, seen + {Cut(disks[at]).mount}, j)
    ensures Placed(disks, [at] + later, seen, j)
  {
    hide Cut;
    var from := [at] + later;
    assert from[0] == at && forall i | 0 <= i < |later| :: from[i + 1] == later[i];
    if j !in later && Cut(disks[j]).mount !in seen {
      if Cut(disks[j]).mount == Cut(disks[at]).mount {
        assert from[0] < j;
      } else {
        var i :| 0 <= i < |later| && later[i] < j && Cut(disks[later[i]]).mount == Cut(disks[j]).mount;
        assert from[i + 1] < j;
      }
    }
  }

  /** Why the disk at `j` is missing: its mount point is reported, the list is full, or the next disk is too much. */
  ghost predicate Excused(size: Disk -> nat, s: Snapshot, r: seq<Disk>, from: seq<nat>, j: nat)
    requires j < |s.disks| && |from| == |r|
  {
    || (exists i :: 0 <= i < |from| && from[i] < j && Shortens(r[i].mount, s.disks[j].mount))
    || (|r| == MAX_SNAPSHOT_DISKS && forall i | 0 <= i < |from| :: from[i] < j)
    || exists m: nat, d: Disk :: m <= j && TooMuch(size, s, r, from, m, d)
  }

  ghost predicate TooMuch(size: Disk -> nat, s: Snapshot, r: seq<Disk>, from: seq<nat>, m: nat, d: Disk)
    requires m < |s.disks| && |from| == |r|
  {
    && (forall i | 0 <= i < |from| :: from[i] < m && r[i].mount != d.mount)
    && Reports(d, s.disks[m]) && JsonSize(size, s.(disks := r + [d])) > BUDGET
  }

  /**
   * The disks that stay are disks of the input, in their order, each with its own figures and its own
   * strings, shortened to whole characters; and each that is missing is excused.
   */
  lemma FitReports(size: Disk -> nat, s: Snapshot) returns (from: seq<nat>)
    ensures var r := WithinLimits(size, s).disks;
            && |from| == |r| && Increasing(from, 0, |s.disks|)
            && (forall i | 0 <= i < |r| :: Reports(r[i], s.disks[from[i]]))
            && (forall j: nat | j < |s.disks| && j !in from :: Excused(size, s, r, from, j))
  {
    hide Cut, Retained, Fitted, Reports, Shortens, Placed, Excused, Places;
    var kept := Retained(s.disks, {});
    var places := Places(s.disks, 0, {});
    assert s.disks[0..] == s.disks;
    RetainedPlaces(s.disks, 0, {});
    FittedIsLongest(size, s.(disks := FirstDisks(kept)));
    var r := WithinLimits(size, s).disks;
    assert r <= kept;
    from := places[..|r|];
    forall i | 0 <= i < |r| ensures Reports(r[i], s.disks[from[i]]) {
      CutReports(s.disks[from[i]]);
    }
    forall j: nat | j < |s.disks| && j !in from ensures Excused(size, s, r, from, j) {
      Missing(size, s, j);
    }
  }

  lemma Missing(size: Disk -> nat, s: Snapshot, j: nat)
    requires j < |s.disks|
    requires var r, places := WithinLimits(size, s).disks, Places(s.disks, 0, {});
             |r| <= |places| && j !in places[..|r|]
    ensures var r, places := WithinLimits(size, s).disks, Places(s.disks, 0, {});
            Excused(size, s, r, places[..|r|], j)
  {
    hide Cut, Retained, Fitted, Reports, Shortens, Places, JsonSize, TooMuch;
    var kept, places := Retained(s.disks, {}), Places(s.disks, 0, {});
    assert s.disks[0..] == s.disks;
    RetainedPlaces(s.disks, 0, {});
    AllPlaced(s.disks, 0, {}, j);
    FittedIsLongest(size, s.(disks := FirstDisks(kept)));
    var r := WithinLimits(size, s).disks;
    var from := places[..|r|];
    assert Placed(s.disks, places, {}, j);
    var at: nat;
    if j in places {
      at :| 0 <= at < |places| && places[at] == j;
    } else {
      at :| 0 <= at < |places| && places[at] < j && Cut(s.disks[places[at]]).mount == Cut(s.disks[j]).mount;
    }
    if at < |r| {
      assert from[at] == places[at] && r[at] == Cut(s.disks[places[at]]);
      CutMount(s.disks[j]);
    } else if |r| < MAX_SNAPSHOT_DISKS {
      NextTooMuch(size, s);
      assert places[|r|] <= j;
    }
  }

  /** The first retained disk that is not kept, while there is room for its number. */
  lemma NextTooMuch(size: Disk -> nat, s: Snapshot)
    requires var r, places := WithinLimits(size, s).disks, Places(s.disks, 0, {}); |r| < |places| && |r| < MAX_SNAPSHOT_DISKS
    ensures var r, places, kept := WithinLimits(size, s).disks, Places(s.disks, 0, {}), Retained(s.disks, {});
            |places| == |kept| && places[|r|] < |s.disks| && TooMuch(size, s, r, places[..|r|], places[|r|], kept[|r|])
  {
    hide Cut, Retained, Fitted, Reports, Shortens, Places, JsonSize;
    var kept, places := Retained(s.disks, {}), Places(s.disks, 0, {});
    assert s.disks[0..] == s.disks;
    RetainedPlaces(s.disks, 0, {});
    RetainedDistinct(s.disks, {});
    FittedIsLongest(size, s.(disks := FirstDisks(kept)));
    var r := WithinLimits(size, s).disks;
    var m, d := places[|r|], kept[|r|];
    CutReports(s.disks[m]);
    assert FirstDisks(kept)[..|r| + 1] == r + [d];
  }

  lemma CutMount(d: Disk)
    ensures Shortens(Cut(d).mount, d.mount)
  {
    hide Shortens;
    TruncatedShortens(d.mount);
  }

  // ---- as it is written -----------------------------------------------------------------------------------------

  lemma RetainedFirstOf(disks: seq<Disk>, i: nat, seen: set<Bytes>)
    requires i < |disks|
    ensures var d := Cut(disks[i]);
            Retained(disks[i..], seen)
            == (if d.mount in seen then [] else [d]) + Retained(disks[i + 1..], seen + {d.mount})
  {
    hide Cut;
    assert disks[i..][1..] == disks[i + 1..] && disks[i..][0] == disks[i];
  }

  lemma RetainStep(disks: seq<Disk>, i: nat, seen: set<Bytes>, kept: seq<Disk>)
    requires i < |disks|
    ensures var d := Cut(disks[i]);
            kept + Retained(disks[i..], seen)
            == (if d.mount in seen then kept else kept + [d]) + Retained(disks[i + 1..], seen + {d.mount})
  {
    hide Cut, Retained;
    var d := Cut(disks[i]);
    var rest := Retained(disks[i + 1..], seen + {d.mount});
    RetainedFirstOf(disks, i, seen);
    if d.mount in seen {
      assert kept + ([] + rest) == kept + rest;
    } else {
      assert kept + ([d] + rest) == kept + [d] + rest;
    }
  }

  class WireSnapshot {
    var base: nat
    var disks: seq<Disk>

    constructor (s: Snapshot)
      ensures base == s.base && disks == s.disks
    {
      base := s.base;
      disks := s.disks;
    }

    /** `retain_mut` */
    method Retain()
      modifies `disks
      ensures disks == Retained(old(disks), {})
    {
      var seen: set<Bytes> := {};
      var kept: seq<Disk> := [];
      var i := 0;
      assert disks[0..] == disks;
      while i < |disks|
        invariant 0 <= i <= |disks| && disks == old(disks)
        invariant kept + Retained(disks[i..], seen) == Retained(disks, {})
      {
        RetainStep(disks, i, seen, kept);
        hide Retained, Cut;
        var disk := CutDisk(disks[i]);
        if disk.mount !in seen {
          kept := kept + [disk];
        }
        seen := seen + {disk.mount};
        i := i + 1;
      }
      assert disks[i..] == [];
      disks := kept;
    }

    static method CutDisk(d: Disk) returns (r: Disk)
      ensures r == Cut(d)
    {
      var mount := TruncateToByteBoundary(d.mount, MAX_SNAPSHOT_STRING_BYTES);
      var device := TruncateToByteBoundary(d.device, MAX_SNAPSHOT_STRING_BYTES);
      var fsType := TruncateToByteBoundary(d.fsType, MAX_SNAPSHOT_STRING_BYTES);
      r := d.(mount := mount, device := device, fsType := fsType);
    }

    /**
     * `fit_snapshot_to_wire_limits`. The running size is exact while a disk remains and one byte low
     * when none does, so it never decides wrongly.
     */
    method Fit(size: Disk -> nat) returns (dropped: nat)
      requires base > 0
      modifies `disks
      ensures disks == WithinLimits(size, Snapshot(base, old(disks))).disks
      ensures dropped == |old(disks)| - |disks|
    {
      var original := |disks|;
      Retain();
      if |disks| > MAX_SNAPSHOT_DISKS {
        disks := disks[..MAX_SNAPSHOT_DISKS];
      }
      ghost var whole := disks;
      var running := JsonSize(size, Snapshot(base, disks));
      while running > BUDGET
        invariant Fitted(size, Snapshot(base, disks)) == Fitted(size, Snapshot(base, whole))
        invariant disks != [] ==> running == JsonSize(size, Snapshot(base, disks))
        invariant disks == [] && whole != [] ==> running + 1 == JsonSize(size, Snapshot(base, disks))
        invariant whole == [] ==> disks == []
        decreases |disks|
      {
        if disks == [] {
          break;
        }
        var disk := disks[|disks| - 1];
        disks := disks[..|disks| - 1];
        running := if running < size(disk) + 1 then 0 else running - (size(disk) + 1);
      }
      assert Fitted(size, Snapshot(base, disks)) == disks;
      FitMeetsLimits(size, Snapshot(base, old(disks)));
      dropped := original - |disks|;
    }
  }
}
