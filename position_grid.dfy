/** The position diagram of src/components/PressurePlatePositionModal.tsx:
    devices grouped by protection screen into the three layer buckets 上, 中
    and 下, and each bucket laid out on a fixed grid of cells. */
module PositionGrid {
  import opened Wrappers
  import opened Seqs
  import opened Records

  const UPPER: string := "上"
  const MIDDLE: string := "中"
  const LOWER: string := "下"

  /** The buckets every screen entry starts with. */
  const LAYER_KEYS: set<string> := {UPPER, MIDDLE, LOWER}

  const MAX_ROWS: nat := 4
  const MAX_COLS: nat := 3

  /** The `switch` on `pressure_plate_position`: the English layer names map
      to their buckets, any other value is used as the key as it is. */
  function BucketKey(position: string): (k: string)
    ensures position == "top" ==> k == UPPER
    ensures position == "middle" ==> k == MIDDLE
    ensures position == "bottom" ==> k == LOWER
    ensures position != "top" && position != "middle" && position != "bottom" ==> k == position
  {
    if position == "top" then UPPER
    else if position == "middle" then MIDDLE
    else if position == "bottom" then LOWER
    else position
  }

  /** A device the grouping keeps: its key names one of the three buckets. */
  predicate Placed(d: Device)
  {
    BucketKey(d.pressurePlatePosition) in LAYER_KEYS
  }

  function InBucket(screen: string, key: string): Device -> bool
  {
    (d: Device) => d.protectionScreen == screen && BucketKey(d.pressurePlatePosition) == key
  }

  function OnScreen(screen: string): Device -> bool
  {
    (d: Device) => d.protectionScreen == screen && Placed(d)
  }

  /** The dictionary `{ '上': [], '中': [], '下': [] }` a screen entry holds;
      its keys never change, so a bucket "exists" exactly for those three keys. */
  datatype Buckets = Buckets(upper: seq<Device>, middle: seq<Device>, lower: seq<Device>)

  const EMPTY_BUCKETS: Buckets := Buckets([], [], [])

  /** `screenGroups[screenName][positionKey].push(device)` for one of the three keys. */
  function Push(b: Buckets, key: string, device: Device): Buckets
  {
    if key == UPPER then b.(upper := b.upper + [device])
    else if key == MIDDLE then b.(middle := b.middle + [device])
    else b.(lower := b.lower + [device])
  }

  /** The buckets of `screen` once all of `devices` are read: each one that
      screen's devices of that layer, in input order. */
  function BucketsOf(devices: seq<Device>, screen: string): Buckets
  {
    Buckets(Filter(devices, InBucket(screen, UPPER)), Filter(devices, InBucket(screen, MIDDLE)),
            Filter(devices, InBucket(screen, LOWER)))
  }

  /** What `groupDevicesByProtectionScreen` returns after reading `devices`:
      an entry for exactly the screens met, each holding its buckets. */
  ghost predicate Grouped(groups: map<string, Buckets>, devices: seq<Device>)
  {
    && groups.Keys == Screens(devices)
    && forall s :: s in groups ==> groups[s] == BucketsOf(devices, s)
  }

  /** `groupDevicesByProtectionScreen`: the `forEach` over the devices. */
  method GroupDevicesByProtectionScreen(devices: seq<Device>) returns (groups: map<string, Buckets>)
    ensures Grouped(groups, devices)
  {
    groups := map[];
    assert Screens(devices[..0]) == {};
    for i := 0 to |devices|
      invariant Grouped(groups, devices[..i])
    {
      groups := GroupDevice(groups, devices[..i], devices[i]);
      assert devices[..i + 1] == devices[..i] + [devices[i]];
    }
    assert devices[..|devices|] == devices;
  }

  /** One step of the `forEach`: the device's screen gets its buckets on
      first sight, and the device is pushed into its bucket if that exists. */
  method GroupDevice(groups: map<string, Buckets>, ghost seen: seq<Device>, device: Device)
    returns (next: map<string, Buckets>)
    requires Grouped(groups, seen)
    ensures Grouped(next, seen + [device])
  {
    var screen := device.protectionScreen;
    next := groups;
    if screen !in next {
      NoDeviceOfScreen(seen, screen);
      next := next[screen := EMPTY_BUCKETS];
    }
    var key := BucketKey(device.pressurePlatePosition);
    ghost var before := next;
    if key in LAYER_KEYS {
      next := next[screen := Push(next[screen], key, device)];
    }
    PushDevice(before, seen, device, next);
  }

  function Screens(devices: seq<Device>): set<string>
  {
    set i | 0 <= i < |devices| :: devices[i].protectionScreen
  }

  lemma ScreensSnoc(seen: seq<Device>, device: Device)
    ensures Screens(seen + [device]) == Screens(seen) + {device.protectionScreen}
  {
    var all := seen + [device];
    assert forall i :: 0 <= i < |seen| ==> all[i] == seen[i];
    assert all[|seen|] == device;
  }

  /** A screen not met yet has three empty buckets over the devices seen so far. */
  lemma NoDeviceOfScreen(seen: seq<Device>, screen: string)
    requires screen !in Screens(seen)
    ensures BucketsOf(seen, screen) == EMPTY_BUCKETS
  {
    forall k, i | 0 <= i < |seen|
      ensures !InBucket(screen, k)(seen[i])
    {
      assert seen[i].protectionScreen in Screens(seen);
    }
    FilterNone(seen, InBucket(screen, UPPER));
    FilterNone(seen, InBucket(screen, MIDDLE));
    FilterNone(seen, InBucket(screen, LOWER));
  }

  /** Pushing into the device's bucket, when its key names one, extends exactly that filter. */
  lemma PushDevice(groups: map<string, Buckets>, seen: seq<Device>, device: Device, next: map<string, Buckets>)
    requires groups.Keys == Screens(seen) + {device.protectionScreen}
    requires forall s :: s in groups ==> groups[s] == BucketsOf(seen, s)
    requires next == if Placed(device)
                     then groups[device.protectionScreen := Push(groups[device.protectionScreen],
                                                               BucketKey(device.pressurePlatePosition), device)]
                     else groups
    ensures Grouped(next, seen + [device])
  {
    ScreensSnoc(seen, device);
    forall s | s in next
      ensures next[s] == BucketsOf(seen + [device], s)
    {
      PushOne(seen, device, s);
    }
  }

  /** One screen's buckets after one more device. */
  lemma PushOne(seen: seq<Device>, device: Device, s: string)
    ensures BucketsOf(seen + [device], s) ==
            if s == device.protectionScreen && Placed(device)
            then Push(BucketsOf(seen, s), BucketKey(device.pressurePlatePosition), device) else BucketsOf(seen, s)
  {
    FilterSnoc(seen, device, InBucket(s, UPPER));
    FilterSnoc(seen, device, InBucket(s, MIDDLE));
    FilterSnoc(seen, device, InBucket(s, LOWER));
    assert UPPER[0] != MIDDLE[0] && UPPER[0] != LOWER[0] && MIDDLE[0] != LOWER[0];
  }

  /** The three buckets of a screen together hold that screen's placed devices. */
  lemma {:induction false} BucketsPartitionScreen(devices: seq<Device>, screen: string)
    ensures |Filter(devices, InBucket(screen, UPPER))| + |Filter(devices, InBucket(screen, MIDDLE))|
            + |Filter(devices, InBucket(screen, LOWER))| == Count(devices, OnScreen(screen))
    decreases |devices|
  {
    if devices != [] {
      var init := devices[..|devices| - 1];
      var d := devices[|devices| - 1];
      assert devices == init + [d];
      BucketsPartitionScreen(init, screen);
      FilterSnoc(init, d, InBucket(screen, UPPER));
      FilterSnoc(init, d, InBucket(screen, MIDDLE));
      FilterSnoc(init, d, InBucket(screen, LOWER));
      FilterSnoc(init, d, OnScreen(screen));
      OneBucket(d, screen);
    }
  }

  /** A device of the screen falls in exactly one bucket when it is placed, in none otherwise. */
  lemma OneBucket(d: Device, screen: string)
    ensures (if InBucket(screen, UPPER)(d) then 1 else 0) + (if InBucket(screen, MIDDLE)(d) then 1 else 0)
            + (if InBucket(screen, LOWER)(d) then 1 else 0) == (if OnScreen(screen)(d) then 1 else 0)
  {
    assert UPPER[0] != MIDDLE[0] && UPPER[0] != LOWER[0] && MIDDLE[0] != LOWER[0];
  }

  /** Total of the per-screen counts over a list of screens. */
  function SumOnScreens(devices: seq<Device>, screens: seq<string>): nat
  {
    if screens == [] then 0 else Count(devices, OnScreen(screens[0])) + SumOnScreens(devices, screens[1..])
  }

  /** How many of `screens` are `s`: one when `s` is listed once. */
  function Occurrences(screens: seq<string>, s: string): nat
  {
    if screens == [] then 0 else (if screens[0] == s then 1 else 0) + Occurrences(screens[1..], s)
  }

  lemma {:induction false} SumSnoc(devices: seq<Device>, d: Device, screens: seq<string>)
    ensures SumOnScreens(devices + [d], screens)
            == SumOnScreens(devices, screens) + (if Placed(d) then Occurrences(screens, d.protectionScreen) else 0)
  {
    if screens != [] {
      SumSnoc(devices, d, screens[1..]);
      FilterSnoc(devices, d, OnScreen(screens[0]));
    }
  }

  lemma {:induction false} OccursOnce(screens: seq<string>, s: string)
    requires s in screens
    requires forall i, j :: 0 <= i < j < |screens| ==> screens[i] != screens[j]
    ensures Occurrences(screens, s) == 1
  {
    if screens[0] == s {
      NotOccurring(screens[1..], s);
    } else {
      OccursOnce(screens[1..], s);
    }
  }

  lemma {:induction false} NotOccurring(screens: seq<string>, s: string)
    requires s !in screens
    ensures Occurrences(screens, s) == 0
  {
    if screens != [] {
      NotOccurring(screens[1..], s);
    }
  }

  /** Over any listing of the screens met, each once, the screens' placed
      devices add up to all placed devices: nothing is counted twice and a
      device is lost only when its key names no bucket. */
  lemma {:induction false} SumOverScreens(devices: seq<Device>, screens: seq<string>)
    requires forall i, j :: 0 <= i < j < |screens| ==> screens[i] != screens[j]
    requires forall i :: 0 <= i < |devices| ==> devices[i].protectionScreen in screens
    ensures SumOnScreens(devices, screens) == Count(devices, Placed)
    decreases |devices|
  {
    if devices == [] {
      ZeroOnScreens(screens);
    } else {
      var init := devices[..|devices| - 1];
      var d := devices[|devices| - 1];
      assert devices == init + [d];
      SumOverScreens(init, screens);
      SumSnoc(init, d, screens);
      FilterSnoc(init, d, Placed);
      OccursOnce(screens, d.protectionScreen);
    }
  }

  lemma {:induction false} ZeroOnScreens(screens: seq<string>)
    ensures SumOnScreens([], screens) == 0
  {
    if screens != [] {
      ZeroOnScreens(screens[1..]);
    }
  }

  /** The total size of the buckets of the listed screens. */
  function BucketTotal(groups: map<string, Buckets>, screens: seq<string>): nat
    requires forall i :: 0 <= i < |screens| ==> screens[i] in groups
  {
    if screens == [] then 0
    else
      var b := groups[screens[0]];
      |b.upper| + |b.middle| + |b.lower| + BucketTotal(groups, screens[1..])
  }

  lemma {:induction false} BucketTotalIsSum(groups: map<string, Buckets>, devices: seq<Device>, screens: seq<string>)
    requires Grouped(groups, devices)
    requires forall i :: 0 <= i < |screens| ==> screens[i] in groups
    ensures BucketTotal(groups, screens) == SumOnScreens(devices, screens)
  {
    if screens != [] {
      BucketTotalIsSum(groups, devices, screens[1..]);
      BucketsPartitionScreen(devices, screens[0]);
    }
  }

  /** The buckets of all screens together hold every device whose key names
      a bucket, once each: listing the screens of the result in any order
      without repetition, the bucket sizes add up to that count. */
  lemma GroupedTotal(groups: map<string, Buckets>, devices: seq<Device>, screens: seq<string>)
    requires Grouped(groups, devices)
    requires forall i, j :: 0 <= i < j < |screens| ==> screens[i] != screens[j]
    requires forall i :: 0 <= i < |screens| ==> screens[i] in groups
    requires forall s :: s in groups ==> s in screens
    ensures BucketTotal(groups, screens) == Count(devices, Placed)
  {
    BucketTotalIsSum(groups, devices, screens);
    forall i | 0 <= i < |devices|
      ensures devices[i].protectionScreen in screens
    {
      assert devices[i].protectionScreen in Screens(devices);
    }
    SumOverScreens(devices, screens);
  }

  /** Whether `d` lands on cell (r, c): its one-based coordinates shifted to zero-based. */
  predicate Lands(d: Device, r: int, c: int)
  {
    d.positionX - 1 == r && d.positionY - 1 == c
  }

  /** The content of cell (r, c) after `forEach` over `devices`: the last device landing there. */
  function CellAt(devices: seq<Device>, r: int, c: int): (cell: Option<Device>)
    decreases |devices|
    ensures cell.None? <==> forall i :: 0 <= i < |devices| ==> !Lands(devices[i], r, c)
    ensures cell.Some? ==> exists i :: 0 <= i < |devices| && devices[i] == cell.value && Lands(devices[i], r, c)
                                       && forall j :: i < j < |devices| ==> !Lands(devices[j], r, c)
  {
    if devices == [] then None
    else
      var last := devices[|devices| - 1];
      if Lands(last, r, c) then Some(last)
      else
        var prefix := devices[..|devices| - 1];
        var earlier := CellAt(prefix, r, c);
        assert forall i :: 0 <= i < |prefix| ==> prefix[i] == devices[i];
        earlier
  }

  /** `createGrid`: `maxRows` rows of `maxCols` cells, empty at first; each
      device whose zero-based coordinates fall inside overwrites its cell. */
  method CreateGrid(devices: seq<Device>, maxRows: nat := MAX_ROWS, maxCols: nat := MAX_COLS)
    returns (grid: array2<Option<Device>>)
    ensures fresh(grid)
    ensures grid.Length0 == maxRows && grid.Length1 == maxCols
    ensures forall r, c :: 0 <= r < maxRows && 0 <= c < maxCols ==> grid[r, c] == CellAt(devices, r, c)
  {
    grid := new Option<Device>[maxRows, maxCols]((r, c) => None);
    for i := 0 to |devices|
      invariant forall r, c :: 0 <= r < maxRows && 0 <= c < maxCols ==> grid[r, c] == CellAt(devices[..i], r, c)
    {
      var device := devices[i];
      var x := device.positionX - 1;
      var y := device.positionY - 1;
      assert devices[..i + 1][..i] == devices[..i];
      assert devices[..i + 1][i] == device;
      if 0 <= x < maxRows && 0 <= y < maxCols {
        grid[x, y] := Some(device);
      }
    }
    assert devices[..|devices|] == devices;
  }

  /** A later device on the same cell replaces an earlier one. */
  lemma LastWriteWins(devices: seq<Device>, d: Device, r: int, c: int)
    requires Lands(d, r, c)
    ensures CellAt(devices + [d], r, c) == Some(d)
  {
  }

  /** A device landing elsewhere leaves a cell as it was. */
  lemma {:induction false} OtherCellsKept(devices: seq<Device>, d: Device, r: int, c: int)
    requires !Lands(d, r, c)
    ensures CellAt(devices + [d], r, c) == CellAt(devices, r, c)
  {
    assert (devices + [d])[..|devices|] == devices;
  }
}
