/** `LocalDataService` of src/lib/localData.ts: the device list and the
    change-log list, changed in place by its operations. Storage, JSON and
    the artificial delay are outside the model: the stored values arrive
    already parsed, and every call is one sequential step. */
module LocalData {
  import opened Wrappers
  import opened Seqs
  import opened Strings
  import opened Records
  import opened ChangeLog
  import SeedData

  const NOT_FOUND: string := "设备未找到"
  const BAD_FORMAT: string := "数据格式不正确"
  const PARSE_FAILED: string := "数据解析失败"
  const DATA_VERSION: string := "3.3"

  /** A stored or imported JSON text after `JSON.parse`: absent (or empty),
      not parseable, some value that is not an array, or an array. */
  datatype Stored<T> = Missing | Unparseable | NotAnArray | Items(items: seq<T>)

  /** The optional filters of `getDevices`; an empty string is a filter not given. */
  datatype DeviceFilter = DeviceFilter(
    protectionScreen: string,
    deviceIssue: string,
    pressurePlateName: string,
    plateType: string,
    pressurePlateStatus: string,
    lastChangedBy: string)

  const NO_FILTER: DeviceFilter := DeviceFilter("", "", "", "", "", "")

  /** The six filter tests, each passing when its filter is not given. */
  predicate Matches(f: DeviceFilter, d: Device)
  {
    && (f.protectionScreen == "" || IncludesIgnoringCase(d.protectionScreen, f.protectionScreen))
    && (f.deviceIssue == "" || IncludesIgnoringCase(d.deviceIssue, f.deviceIssue))
    && (f.pressurePlateName == "" || IncludesIgnoringCase(d.pressurePlateName, f.pressurePlateName))
    && (f.plateType == "" || d.plateType == f.plateType)
    && (f.pressurePlateStatus == "" || Includes(d.pressurePlateStatus.GetOr(""), f.pressurePlateStatus))
    && (f.lastChangedBy == "" || IncludesIgnoringCase(d.lastChangedBy.GetOr(""), f.lastChangedBy))
  }

  function MatchesFilter(f: DeviceFilter): Device -> bool
  {
    (d: Device) => Matches(f, d)
  }

  /** One `if (filters.x) list = list.filter(p)` step. */
  function FilterIf(ds: seq<Device>, active: bool, p: Device -> bool): seq<Device>
  {
    if active then Filter(ds, p) else ds
  }

  /** The six tests of `getDevices`, in its order. */
  function ScreenTest(f: DeviceFilter): Device -> bool
  {
    (d: Device) => IncludesIgnoringCase(d.protectionScreen, f.protectionScreen)
  }

  function IssueTest(f: DeviceFilter): Device -> bool
  {
    (d: Device) => IncludesIgnoringCase(d.deviceIssue, f.deviceIssue)
  }

  function NameTest(f: DeviceFilter): Device -> bool
  {
    (d: Device) => IncludesIgnoringCase(d.pressurePlateName, f.pressurePlateName)
  }

  function TypeTest(f: DeviceFilter): Device -> bool
  {
    (d: Device) => d.plateType == f.plateType
  }

  function StatusTest(f: DeviceFilter): Device -> bool
  {
    (d: Device) => Includes(d.pressurePlateStatus.GetOr(""), f.pressurePlateStatus)
  }

  function ChangedByTest(f: DeviceFilter): Device -> bool
  {
    (d: Device) => IncludesIgnoringCase(d.lastChangedBy.GetOr(""), f.lastChangedBy)
  }

  /** A filter step after a filter is one filter by both tests. */
  lemma FilterIfStep(ds: seq<Device>, q: Device -> bool, active: bool, p: Device -> bool, both: Device -> bool)
    requires forall i :: 0 <= i < |ds| ==> both(ds[i]) == (q(ds[i]) && (!active || p(ds[i])))
    ensures FilterIf(Filter(ds, q), active, p) == Filter(ds, both)
  {
    if active {
      FilterFilter(ds, q, p, both);
    } else {
      FilterExt(ds, q, both);
    }
  }

  /** Whether `d` passes the first `n` of the six filters. */
  predicate PassesFirst(f: DeviceFilter, n: nat, d: Device)
    requires n <= 6
  {
    && (1 <= n ==> f.protectionScreen == "" || ScreenTest(f)(d))
    && (2 <= n ==> f.deviceIssue == "" || IssueTest(f)(d))
    && (3 <= n ==> f.pressurePlateName == "" || NameTest(f)(d))
    && (4 <= n ==> f.plateType == "" || TypeTest(f)(d))
    && (5 <= n ==> f.pressurePlateStatus == "" || StatusTest(f)(d))
    && (6 <= n ==> f.lastChangedBy == "" || ChangedByTest(f)(d))
  }

  function FirstTests(f: DeviceFilter, n: nat): Device -> bool
    requires n <= 6
  {
    (d: Device) => PassesFirst(f, n, d)
  }

  /** Whether the filter of step `n` is given, and its test. */
  predicate Given(f: DeviceFilter, n: nat)
    requires 1 <= n <= 6
  {
    match n
    case 1 => f.protectionScreen != ""
    case 2 => f.deviceIssue != ""
    case 3 => f.pressurePlateName != ""
    case 4 => f.plateType != ""
    case 5 => f.pressurePlateStatus != ""
    case _ => f.lastChangedBy != ""
  }

  function Test(f: DeviceFilter, n: nat): Device -> bool
    requires 1 <= n <= 6
  {
    match n
    case 1 => ScreenTest(f)
    case 2 => IssueTest(f)
    case 3 => NameTest(f)
    case 4 => TypeTest(f)
    case 5 => StatusTest(f)
    case _ => ChangedByTest(f)
  }

  /** The filter pipeline of `getDevices`: the list after its first `n`
      `if (filters.x) list = list.filter(...)` steps, in the source's order. */
  function Stage(ds: seq<Device>, f: DeviceFilter, n: nat): seq<Device>
    requires n <= 6
  {
    if n == 0 then ds else FilterIf(Stage(ds, f, n - 1), Given(f, n), Test(f, n))
  }

  /** The first `n` steps keep, in order, exactly what passes the first `n` tests. */
  lemma {:induction false} StageSpec(ds: seq<Device>, f: DeviceFilter, n: nat)
    requires n <= 6
    ensures Stage(ds, f, n) == Filter(ds, FirstTests(f, n))
    decreases n
  {
    if n == 0 {
      StageZero(ds, f);
    } else {
      StageSpec(ds, f, n - 1);
      StageStep(ds, f, n, Stage(ds, f, n - 1));
    }
  }

  lemma StageZero(ds: seq<Device>, f: DeviceFilter)
    ensures Stage(ds, f, 0) == Filter(ds, FirstTests(f, 0))
  {
    FilterAll(ds, FirstTests(f, 0));
  }

  /** One more step keeps what passes one more test. */
  lemma StageStep(ds: seq<Device>, f: DeviceFilter, n: nat, prev: seq<Device>)
    requires 1 <= n <= 6
    requires prev == Filter(ds, FirstTests(f, n - 1))
    ensures FilterIf(prev, Given(f, n), Test(f, n)) == Filter(ds, FirstTests(f, n))
  {
    PassesStep(ds, f, n);
    FilterIfStep(ds, FirstTests(f, n - 1), Given(f, n), Test(f, n), FirstTests(f, n));
  }

  /** Passing the first `n` tests is passing the first `n - 1` and the `n`th when it is given. */
  lemma PassesStep(ds: seq<Device>, f: DeviceFilter, n: nat)
    requires 1 <= n <= 6
    ensures forall i :: 0 <= i < |ds| ==>
      FirstTests(f, n)(ds[i]) == (FirstTests(f, n - 1)(ds[i]) && (!Given(f, n) || Test(f, n)(ds[i])))
  {
  }

  /** All six steps keep exactly the devices `Matches` accepts, in order. */
  lemma DevicePipelineSpec(ds: seq<Device>, f: DeviceFilter)
    ensures Stage(ds, f, 6) == Filter(ds, MatchesFilter(f))
  {
    StageSpec(ds, f, 6);
    FilterExt(ds, FirstTests(f, 6), MatchesFilter(f));
  }

  function BySequence(d: Device): int
  {
    d.sequence
  }

  /** The matching devices sorted by sequence: sorted, the same devices, and
      each of them stored and matching. */
  lemma SortedMatches(ds: seq<Device>, f: DeviceFilter)
    ensures var r := SortBy(Filter(ds, MatchesFilter(f)), BySequence);
      && SortedBy(r, BySequence)
      && multiset(r) == multiset(Filter(ds, MatchesFilter(f)))
      && (forall i :: 0 <= i < |r| ==> r[i] in ds && Matches(f, r[i]))
      && (forall i :: 0 <= i < |ds| && Matches(f, ds[i]) ==> ds[i] in r)
  {
    var kept := Filter(ds, MatchesFilter(f));
    var r := SortBy(kept, BySequence);
    SameMembers(r, kept);
    forall i | 0 <= i < |r|
      ensures r[i] in ds && Matches(f, r[i])
    {
      assert r[i] in kept;
      var j :| 0 <= j < |kept| && kept[j] == r[i];
      assert MatchesFilter(f)(kept[j]);
    }
    forall i | 0 <= i < |ds| && Matches(f, ds[i])
      ensures ds[i] in r
    {
      assert MatchesFilter(f)(ds[i]);
    }
  }

  function HasId(id: int): Device -> bool
  {
    (d: Device) => d.id == id
  }

  /** The lookup of `getDeviceById`: the first device with the id, or the not-found error. */
  function LookupDevice(ds: seq<Device>, id: int): (r: Result<Device>)
    ensures r.Ok? <==> exists i :: 0 <= i < |ds| && ds[i].id == id
    ensures r.Ok? ==> r.value.id == id && r.value in ds
    ensures r.Err? ==> r.message == NOT_FOUND
  {
    match Find(ds, HasId(id))
    case Some(d) => Ok(d)
    case None => Err(NOT_FOUND)
  }

  /** `Math.max(...devices.map(d => d.id), 0) + 1`: above every id in use. */
  function NextDeviceId(ds: seq<Device>): (r: int)
    ensures 1 <= r
    ensures forall i :: 0 <= i < |ds| ==> ds[i].id < r
    ensures r == 1 || exists i :: 0 <= i < |ds| && ds[i].id == r - 1
  {
    MaxOrZero(ds, (d: Device) => d.id) + 1
  }

  /** The record `createDevice` appends: the input with a hard type, the new id and both timestamps. */
  function NewDevice(input: Device, id: int, now: string): Device
  {
    input.(plateType := HARD, id := id, createdAt := Some(now), updatedAt := Some(now))
  }

  /** `importedDevices.map(d => ({ ...d, type: 'hard' }))`. */
  function ForceHard(ds: seq<Device>): (r: seq<Device>)
    ensures |r| == |ds|
    ensures forall i :: 0 <= i < |r| ==> r[i] == ds[i].(plateType := HARD)
  {
    seq(|ds|, i requires 0 <= i < |ds| => ds[i].(plateType := HARD))
  }

  predicate UniqueDeviceIds(ds: seq<Device>)
  {
    forall i, j :: 0 <= i < j < |ds| ==> ds[i].id != ds[j].id
  }

  /** Creating keeps ids unique: the new id is above all others. */
  lemma CreateKeepsUniqueIds(ds: seq<Device>, input: Device, now: string)
    requires UniqueDeviceIds(ds)
    ensures UniqueDeviceIds(ds + [NewDevice(input, NextDeviceId(ds), now)])
  {
    var r := ds + [NewDevice(input, NextDeviceId(ds), now)];
    forall i, j | 0 <= i < j < |r|
      ensures r[i].id != r[j].id
    {
      if j == |ds| {
        assert r[i] == ds[i];
      }
    }
  }

  /** `splice(i, 1)` keeps the other devices in order and removes exactly one copy of device i. */
  lemma RemoveAtSpec(ds: seq<Device>, i: nat)
    requires i < |ds|
    ensures |ds[..i] + ds[i + 1..]| == |ds| - 1
    ensures IsSubsequence(ds[..i] + ds[i + 1..], ds)
    ensures multiset(ds[..i] + ds[i + 1..]) + multiset{ds[i]} == multiset(ds)
  {
    assert ds == ds[..i] + [ds[i]] + ds[i + 1..];
    DropOneIsSubsequence(ds, i);
  }

  lemma {:induction false} DropOneIsSubsequence(ds: seq<Device>, i: nat)
    requires i < |ds|
    ensures IsSubsequence(ds[..i] + ds[i + 1..], ds)
    decreases i
  {
    if i == 0 {
      assert ds[..0] + ds[1..] == ds[1..];
      SubsequenceRefl(ds[1..]);
    } else {
      DropOneIsSubsequence(ds[1..], i - 1);
      var r := ds[..i] + ds[i + 1..];
      assert r[0] == ds[0];
      assert r[1..] == ds[1..][..i - 1] + ds[1..][i..];
    }
  }

  lemma {:induction false} SubsequenceRefl(s: seq<Device>)
    ensures IsSubsequence(s, s)
    decreases |s|
  {
    if s != [] {
      SubsequenceRefl(s[1..]);
    }
  }

  /** Migrated or imported, every plate is hard, and forcing twice is forcing once. */
  lemma ForceHardIdempotent(ds: seq<Device>)
    ensures ForceHard(ForceHard(ds)) == ForceHard(ds)
    ensures forall i :: 0 <= i < |ds| ==> ForceHard(ds)[i].plateType == HARD
  {
  }

  /** `initializeData` regenerates unless the version is current and the stored
      devices are an array of exactly 121. */
  predicate MustRegenerate(version: Option<string>, stored: Stored<Device>)
  {
    version != Some(DATA_VERSION) || !stored.Items? || |stored.items| != SeedData.SEED_COUNT
  }

  class LocalDataService {
    var devices: seq<Device>
    var logs: seq<LogItem>

    /** `initializeData`: the seed when the stored devices cannot be used, the
        migration of the stored ones otherwise; stored logs that are not an
        array become the empty list. In every case there are 121 devices. */
    constructor (version: Option<string>, storedDevices: Stored<Device>, storedLogs: Stored<LogItem>,
                 picks: seq<SeedData.Picks>, now: string)
      requires SeedData.SEED_COUNT <= |picks| && SeedData.AllValid(picks)
      ensures |devices| == SeedData.SEED_COUNT
      ensures MustRegenerate(version, storedDevices) ==>
        forall k :: 0 <= k < SeedData.SEED_COUNT ==>
          devices[k] == SeedData.SeedDevice(k, SeedData.PlateNameOf(picks[k]), now)
      ensures !MustRegenerate(version, storedDevices) ==> devices == SeedData.Migrate(storedDevices.items, picks)
      ensures logs == if storedLogs.Items? then storedLogs.items else []
    {
      var ds: seq<Device>;
      if MustRegenerate(version, storedDevices) {
        ds := SeedData.GenerateDevices(picks, now);
      } else {
        ds := SeedData.Migrate(storedDevices.items, picks);
      }
      devices := ds;
      logs := if storedLogs.Items? then storedLogs.items else [];
    }

    /** `getDevices`: exactly the stored devices that pass every given
        filter, ascending by sequence; the store is only read. */
    function GetDevices(f: DeviceFilter): (r: seq<Device>)
      reads this
      ensures SortedBy(r, BySequence)
      ensures multiset(r) == multiset(Filter(devices, MatchesFilter(f)))
      ensures forall i :: 0 <= i < |r| ==> r[i] in devices && Matches(f, r[i])
      ensures forall i :: 0 <= i < |devices| && Matches(f, devices[i]) ==> devices[i] in r
    {
      DevicePipelineSpec(devices, f);
      SortedMatches(devices, f);
      SortBy(Stage(devices, f, 6), BySequence)
    }

    /** `getDeviceById` over the stored devices. */
    function GetDeviceById(id: int): (r: Result<Device>)
      reads this
      ensures r == LookupDevice(devices, id)
    {
      LookupDevice(devices, id)
    }

    /** `updateDevice`: the first device with the id becomes the patch spread
        over it with a new `updated_at`; an unknown id changes nothing. */
    method UpdateDevice(id: int, patch: DevicePatch, now: string) returns (r: Result<seq<Device>>)
      modifies this
      ensures logs == old(logs)
      ensures FirstIndex(old(devices), HasId(id)).None? ==> r == Err(NOT_FOUND) && devices == old(devices)
      ensures FirstIndex(old(devices), HasId(id)).Some? ==>
        var i := FirstIndex(old(devices), HasId(id)).value;
        && devices == old(devices)[i := Merge(old(devices)[i], patch).(updatedAt := Some(now))]
        && r == Ok([devices[i]])
    {
      var found := FirstIndex(devices, HasId(id));
      if found.None? {
        return Err(NOT_FOUND);
      }
      var i := found.value;
      devices := devices[i := Merge(devices[i], patch).(updatedAt := Some(now))];
      r := Ok([devices[i]]);
    }

    /** `createDevice`: appends the input as a hard plate with the next id. */
    method CreateDevice(input: Device, now: string) returns (r: Result<seq<Device>>)
      modifies this
      ensures logs == old(logs)
      ensures devices == old(devices) + [NewDevice(input, NextDeviceId(old(devices)), now)]
      ensures r == Ok([devices[|devices| - 1]])
      ensures UniqueDeviceIds(old(devices)) ==> UniqueDeviceIds(devices)
    {
      var maxId := MaxOrZero(devices, (d: Device) => d.id);
      var created := NewDevice(input, maxId + 1, now);
      if UniqueDeviceIds(devices) {
        CreateKeepsUniqueIds(devices, input, now);
      }
      devices := devices + [created];
      r := Ok([created]);
    }

    /** `deleteDevice`: removes the first device with the id; an unknown id changes nothing. */
    method DeleteDevice(id: int) returns (r: Result<seq<Device>>)
      modifies this
      ensures logs == old(logs)
      ensures FirstIndex(old(devices), HasId(id)).None? ==> r == Err(NOT_FOUND) && devices == old(devices)
      ensures FirstIndex(old(devices), HasId(id)).Some? ==>
        var i := FirstIndex(old(devices), HasId(id)).value;
        && devices == old(devices)[..i] + old(devices)[i + 1..]
        && r == Ok([old(devices)[i]])
    {
      var found := FirstIndex(devices, HasId(id));
      if found.None? {
        return Err(NOT_FOUND);
      }
      var i := found.value;
      var deleted := devices[i];
      devices := devices[..i] + devices[i + 1..];
      r := Ok([deleted]);
    }

    /** `importData`: an array replaces the devices, all made hard; anything
        else is an error and changes nothing. */
    method ImportData(payload: Stored<Device>) returns (r: Result<seq<Device>>)
      modifies this
      ensures logs == old(logs)
      ensures payload.Items? ==> devices == ForceHard(payload.items) && r == Ok(devices)
      ensures payload.NotAnArray? ==> devices == old(devices) && r == Err(BAD_FORMAT)
      ensures (payload.Missing? || payload.Unparseable?) ==> devices == old(devices) && r == Err(PARSE_FAILED)
    {
      match payload
      case Items(items) =>
        devices := ForceHard(items);
        r := Ok(devices);
      case NotAnArray =>
        r := Err(BAD_FORMAT);
      case _ =>
        r := Err(PARSE_FAILED);
    }

    /** `resetData`: the seed again and no logs. */
    method ResetData(picks: seq<SeedData.Picks>, now: string) returns (r: seq<Device>)
      requires SeedData.SEED_COUNT <= |picks| && SeedData.AllValid(picks)
      modifies this
      ensures logs == [] && r == devices && |devices| == SeedData.SEED_COUNT
      ensures forall k :: 0 <= k < SeedData.SEED_COUNT ==>
        devices[k] == SeedData.SeedDevice(k, SeedData.PlateNameOf(picks[k]), now)
    {
      devices := SeedData.GenerateDevices(picks, now);
      logs := [];
      r := devices;
    }

    /** `forceUpdateData`: the seed again, the logs kept. */
    method ForceUpdateData(picks: seq<SeedData.Picks>, now: string) returns (r: seq<Device>)
      requires SeedData.SEED_COUNT <= |picks| && SeedData.AllValid(picks)
      modifies this
      ensures logs == old(logs) && r == devices && |devices| == SeedData.SEED_COUNT
      ensures forall k :: 0 <= k < SeedData.SEED_COUNT ==>
        devices[k] == SeedData.SeedDevice(k, SeedData.PlateNameOf(picks[k]), now)
    {
      devices := SeedData.GenerateDevices(picks, now);
      r := devices;
    }

    /** `addUpdateLog`: the upsert, which keeps one log per device and unique ids. */
    method AddUpdateLog(input: LogInput) returns (r: LogItem)
      modifies this
      ensures devices == old(devices)
      ensures (logs, r) == Upsert(old(logs), input)
      ensures OnePerDevice(old(logs)) ==> OnePerDevice(logs)
      ensures UniqueIds(old(logs)) ==> UniqueIds(logs)
    {
      if OnePerDevice(logs) {
        UpsertOnePerDevice(logs, input);
      }
      if UniqueIds(logs) {
        UpsertUniqueIds(logs, input);
      }
      var idx := FirstIndex(logs, SameDevice(input.deviceId));
      if idx.Some? {
        r := Overwrite(logs[idx.value], input);
        logs := logs[idx.value := r];
      } else {
        var maxId := MaxOrZero(logs, (l: LogItem) => l.id);
        r := Fresh(maxId + 1, input);
        logs := logs + [r];
      }
    }

    /** `getUpdateLogs`: with a device selected the latest of its logs,
        otherwise the latest log of every device; newest first and numbered
        from 1. The stored logs are only read. */
    method GetUpdateLogs(deviceId: Option<int>) returns (r: seq<LogItem>)
      ensures r == UpdateLogsResult(logs, deviceId)
    {
      var result: seq<LogItem> := [];
      if DeviceSelected(deviceId) {
        var candidates := Filter(logs, SameDevice(deviceId.value));
        if |candidates| > 0 {
          result := [LatestOf(candidates)];
        }
      } else {
        result := CollectLatest(logs);
      }
      r := Renumber(SortBy(result, ByTimeDesc));
    }

    /** `setLogsHiddenByIds`: the logs whose id is listed take `hidden`, and
        the count is how many logs were listed, whatever their state. */
    method SetLogsHiddenByIds(ids: seq<int>, hidden: bool) returns (changed: nat)
      modifies this
      ensures devices == old(devices)
      ensures logs == SetHiddenWhere(old(logs), ById(set x | x in ids), hidden)
      ensures changed == Count(old(logs), ById(set x | x in ids))
    {
      var idSet := set x | x in ids;
      changed := HideWhere(ById(idSet), hidden);
    }

    /** `setLogsHiddenByRange`: the logs not yet in the wanted state, of the
        device when one is given, inside the inclusive optional bounds, take
        `hidden`; the count is how many changed. */
    method SetLogsHiddenByRange(deviceId: Option<int>, start: Option<int>, end: Option<int>, hidden: bool)
      returns (changed: nat)
      modifies this
      ensures devices == old(devices)
      ensures logs == SetHiddenWhere(old(logs), InRange(deviceId, start, end, hidden), hidden)
      ensures changed == Count(old(logs), InRange(deviceId, start, end, hidden))
    {
      changed := HideWhere(InRange(deviceId, start, end, hidden), hidden);
    }

    /** Both hide operations: the marked logs replace the stored ones. */
    method HideWhere(p: LogItem -> bool, hidden: bool) returns (changed: nat)
      modifies this
      ensures devices == old(devices)
      ensures logs == SetHiddenWhere(old(logs), p, hidden)
      ensures changed == Count(old(logs), p)
    {
      var mapped;
      mapped, changed := MarkHidden(logs, p, hidden);
      logs := mapped;
    }
  }

  /** The counting `logs.map` both hide operations share: every log `p`
      selects takes `hidden`, and the count is how many were selected. */
  method MarkHidden(logs: seq<LogItem>, p: LogItem -> bool, hidden: bool) returns (mapped: seq<LogItem>, changed: nat)
    ensures mapped == SetHiddenWhere(logs, p, hidden)
    ensures changed == Count(logs, p)
  {
    mapped := [];
    changed := 0;
    for i := 0 to |logs|
      invariant mapped == SetHiddenWhere(logs[..i], p, hidden)
      invariant changed == Count(logs[..i], p)
    {
      var l := logs[i];
      MarkHiddenStep(logs, i, p, hidden);
      if p(l) {
        changed := changed + 1;
        mapped := mapped + [l.(hidden := hidden)];
      } else {
        mapped := mapped + [l];
      }
    }
    assert logs[..|logs|] == logs;
  }

  /** The `byDevice` Map of `getUpdateLogs` as a map and its insertion
      order: entry `j` of `entries` is the value stored under `order[j]`. */
  ghost predicate Mirrors(byDevice: map<int, LogItem>, order: seq<int>, entries: seq<LogItem>)
  {
    && |order| == |entries|
    && (forall j :: 0 <= j < |order| ==>
          order[j] == entries[j].deviceId && order[j] in byDevice && byDevice[order[j]] == entries[j])
    && (forall k :: k in byDevice ==> k in order)
  }

  /** The loop of `getUpdateLogs` over a `Map` and the values in insertion
      order: one entry per device, its latest log, earliest on a tie. */
  method CollectLatest(logs: seq<LogItem>) returns (values: seq<LogItem>)
    ensures values == LatestPerDevice(logs)
  {
    var byDevice: map<int, LogItem> := map[];
    var order: seq<int> := [];
    for i := 0 to |logs|
      invariant Mirrors(byDevice, order, LatestPerDevice(logs[..i]))
    {
      var l := logs[i];
      if l.deviceId !in byDevice {
        CollectInsert(byDevice, order, logs, i);
        byDevice := byDevice[l.deviceId := l];
        order := order + [l.deviceId];
      } else {
        var existed := byDevice[l.deviceId];
        var kept := if existed.changeTime < l.changeTime then l else existed;
        CollectReplace(byDevice, order, logs, i);
        byDevice := byDevice[l.deviceId := kept];
      }
    }
    assert logs[..|logs|] == logs;
    values := [];
    for j := 0 to |order|
      invariant values == LatestPerDevice(logs)[..j]
    {
      values := values + [byDevice[order[j]]];
    }
  }

  /** A device met for the first time joins the Map and the order at the end. */
  /** The loop of `CollectLatest` meets a device it has not seen. */
  lemma CollectInsert(byDevice: map<int, LogItem>, order: seq<int>, logs: seq<LogItem>, i: nat)
    requires i < |logs| && Mirrors(byDevice, order, LatestPerDevice(logs[..i]))
    requires logs[i].deviceId !in byDevice
    ensures Mirrors(byDevice[logs[i].deviceId := logs[i]], order + [logs[i].deviceId], LatestPerDevice(logs[..i + 1]))
  {
    LatestPerDeviceSnoc(logs, i);
    MirrorsInsert(byDevice, order, LatestPerDevice(logs[..i]), logs[i]);
  }

  /** The loop of `CollectLatest` meets a device it has seen. */
  lemma CollectReplace(byDevice: map<int, LogItem>, order: seq<int>, logs: seq<LogItem>, i: nat)
    requires i < |logs| && Mirrors(byDevice, order, LatestPerDevice(logs[..i]))
    requires logs[i].deviceId in byDevice
    ensures Mirrors(byDevice[logs[i].deviceId := Newer(byDevice[logs[i].deviceId], logs[i])], order, LatestPerDevice(logs[..i + 1]))
  {
    LatestPerDeviceSnoc(logs, i);
    LatestPerDeviceDistinct(logs[..i]);
    MirrorsReplace(byDevice, order, LatestPerDevice(logs[..i]), logs[i]);
  }

  /** The entries after one more log. */
  lemma LatestPerDeviceSnoc(logs: seq<LogItem>, i: nat)
    requires i < |logs|
    ensures var prev := LatestPerDevice(logs[..i]);
      LatestPerDevice(logs[..i + 1]) ==
        match FirstIndex(prev, SameDevice(logs[i].deviceId))
        case Some(k) => prev[k := Newer(prev[k], logs[i])]
        case None => prev + [logs[i]]
  {
    assert logs[..i + 1][..i] == logs[..i];
  }

  lemma MirrorsInsert(byDevice: map<int, LogItem>, order: seq<int>, prev: seq<LogItem>, l: LogItem)
    requires Mirrors(byDevice, order, prev)
    requires l.deviceId !in byDevice
    ensures FirstIndex(prev, SameDevice(l.deviceId)).None?
    ensures Mirrors(byDevice[l.deviceId := l], order + [l.deviceId], prev + [l])
  {
    forall j | 0 <= j < |prev|
      ensures !SameDevice(l.deviceId)(prev[j])
    {
      assert order[j] in byDevice;
    }
  }

  /** A device already in the Map keeps its place and the newer of its two logs. */
  lemma MirrorsReplace(byDevice: map<int, LogItem>, order: seq<int>, prev: seq<LogItem>, l: LogItem)
    requires Mirrors(byDevice, order, prev)
    requires OnePerDevice(prev)
    requires l.deviceId in byDevice
    ensures FirstIndex(prev, SameDevice(l.deviceId)).Some?
    ensures var k := FirstIndex(prev, SameDevice(l.deviceId)).value;
      Mirrors(byDevice[l.deviceId := Newer(byDevice[l.deviceId], l)], order, prev[k := Newer(prev[k], l)])
  {
    var d := l.deviceId;
    var j :| 0 <= j < |order| && order[j] == d;
    assert SameDevice(d)(prev[j]);
    var k := FirstIndex(prev, SameDevice(d)).value;
    assert order[k] == d;
  }

  /** One more log looked at by the `map` of `MarkHidden`. */
  lemma MarkHiddenStep(logs: seq<LogItem>, i: nat, p: LogItem -> bool, hidden: bool)
    requires i < |logs|
    ensures SetHiddenWhere(logs[..i + 1], p, hidden) ==
            SetHiddenWhere(logs[..i], p, hidden) + [if p(logs[i]) then logs[i].(hidden := hidden) else logs[i]]
    ensures Count(logs[..i + 1], p) == Count(logs[..i], p) + (if p(logs[i]) then 1 else 0)
  {
    assert logs[..i + 1] == logs[..i] + [logs[i]];
    FilterSnoc(logs[..i], logs[i], p);
    SetHiddenWhereSnoc(logs[..i], logs[i], p, hidden);
  }

  lemma SetHiddenWhereSnoc(s: seq<LogItem>, x: LogItem, p: LogItem -> bool, hidden: bool)
    ensures SetHiddenWhere(s + [x], p, hidden) == SetHiddenWhere(s, p, hidden) + [if p(x) then x.(hidden := hidden) else x]
  {
  }
}
