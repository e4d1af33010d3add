/** The change-log views of src/components/UpdateLogsModal.tsx and
    src/pages/UpdateLogs.tsx, which share their logic: which logs are loaded,
    the table filter, the page slice, the default range of the restore
    dialog, and the guards in front of hiding and restoring. Day boundaries
    (`startOf('day')`, `endOf('day')`) are functions given as parameters. */
module LogView {
  import opened Wrappers
  import opened Seqs
  import opened Strings
  import opened Records
  import opened ChangeLog
  import opened LocalData

  /** `Number(query.get('deviceId') || 0)`: an absent or empty parameter reads
      as 0; a text that is not a number gives NaN. */
  datatype QueryNumber = Absent | Number(n: int) | NotANumber

  /** The device the page shows, None when the number is falsy (0 or NaN). */
  function DeviceIdFromQuery(q: QueryNumber): (r: Option<int>)
    ensures r.Some? <==> q.Number? && q.n != 0
    ensures r.Some? ==> r.value == q.n
  {
    match q
    case Number(n) => if n != 0 then Some(n) else None
    case _ => None
  }

  /** `fetchBase`: without a device every device's latest log; with one, its
      latest log once the device is found, and nothing when it is not. */
  function FetchBase(devices: seq<Device>, logs: seq<LogItem>, deviceId: Option<int>): seq<LogItem>
  {
    if !DeviceSelected(deviceId) then UpdateLogsResult(logs, None)
    else if LookupDevice(devices, deviceId.value).Err? then []
    else UpdateLogsResult(logs, deviceId)
  }

  /** The three outcomes of `fetchBase`. */
  lemma FetchBaseSpec(devices: seq<Device>, logs: seq<LogItem>, deviceId: Option<int>)
    ensures !DeviceSelected(deviceId) ==> FetchBase(devices, logs, deviceId) == UpdateLogsResult(logs, None)
    ensures DeviceSelected(deviceId) && (forall i :: 0 <= i < |devices| ==> devices[i].id != deviceId.value)
            ==> FetchBase(devices, logs, deviceId) == []
    ensures DeviceSelected(deviceId) ==> |FetchBase(devices, logs, deviceId)| <= 1
    ensures DeviceSelected(deviceId) ==>
      forall i :: 0 <= i < |FetchBase(devices, logs, deviceId)| ==>
        FetchBase(devices, logs, deviceId)[i].deviceId == deviceId.value
  {
    if DeviceSelected(deviceId) && LookupDevice(devices, deviceId.value).Ok? {
      var r := UpdateLogsResult(logs, deviceId);
      var base := LatestQuery(logs, deviceId);
      QueryOneDevice(logs, deviceId.value);
      forall i | 0 <= i < |r|
        ensures r[i].deviceId == deviceId.value
      {
        var k :| 0 <= k < |base| && r[i] == base[k].(sequence := i + 1);
        assert base[k] in ForDevice(LatestPerDevice(logs), deviceId.value);
      }
    }
  }

  /** The table filters; an empty string is a filter not set. The day range
      holds the picked days, each optional. */
  datatype LogFilters = LogFilters(
    changeType: string,
    status: string,
    source: string,
    fromDay: Option<int>,
    toDay: Option<int>)

  /** The test of `filtered`, in the source's order of early returns. */
  predicate Keep(f: LogFilters, startOfDay: int -> int, endOfDay: int -> int, l: LogItem)
  {
    if l.hidden then false
    else if f.changeType != "" && l.changeType != f.changeType then false
    else if f.status != "" && l.pressurePlateStatus != f.status then false
    else if f.source != "" && !Includes(l.changeSource, f.source) then false
    else if f.fromDay.Some? && l.changeTime < startOfDay(f.fromDay.value) then false
    else if f.toDay.Some? && l.changeTime > endOfDay(f.toDay.value) then false
    else true
  }

  /** `filtered`: the kept logs, in order. */
  function Filtered(logs: seq<LogItem>, f: LogFilters, startOfDay: int -> int, endOfDay: int -> int): (r: seq<LogItem>)
    ensures IsSubsequence(r, logs)
    ensures forall i :: 0 <= i < |r| ==> !r[i].hidden && r[i] in logs && Keep(f, startOfDay, endOfDay, r[i])
    ensures forall i :: 0 <= i < |logs| && Keep(f, startOfDay, endOfDay, logs[i]) ==> logs[i] in r
    ensures forall l :: multiset(r)[l] == (if Keep(f, startOfDay, endOfDay, l) then multiset(logs)[l] else 0)
  {
    var keep := (l: LogItem) => Keep(f, startOfDay, endOfDay, l);
    FilterIsSubsequence(logs, keep);
    FilterMultiplicity(logs, keep);
    Filter(logs, keep)
  }

  /** The filter spelled out: a log stays iff it is visible, has the chosen
      type and status exactly, contains the source text, and lies between the
      start of the first day and the end of the last, each test applying only
      when its filter is set. */
  lemma KeepIff(f: LogFilters, startOfDay: int -> int, endOfDay: int -> int, l: LogItem)
    ensures Keep(f, startOfDay, endOfDay, l) <==>
      && !l.hidden
      && (f.changeType == "" || l.changeType == f.changeType)
      && (f.status == "" || l.pressurePlateStatus == f.status)
      && (f.source == "" || Includes(l.changeSource, f.source))
      && (f.fromDay.None? || startOfDay(f.fromDay.value) <= l.changeTime)
      && (f.toDay.None? || l.changeTime <= endOfDay(f.toDay.value))
  {
  }

  /** With no filter set only the hidden logs go. */
  lemma {:induction false} FilteredUnset(logs: seq<LogItem>, startOfDay: int -> int, endOfDay: int -> int)
    ensures Filtered(logs, LogFilters("", "", "", None, None), startOfDay, endOfDay)
            == Filter(logs, (l: LogItem) => !l.hidden)
  {
    var f := LogFilters("", "", "", None, None);
    FilterExt(logs, (l: LogItem) => Keep(f, startOfDay, endOfDay, l), (l: LogItem) => !l.hidden);
  }

  /** `paged`: `filtered.slice(start, start + pageSize)` with `start = (page - 1) * pageSize`, that is `PageStart(page, pageSize)`. */
  function Paged(filtered: seq<LogItem>, page: int, pageSize: int): (r: seq<LogItem>)
    ensures 1 <= page && 0 <= pageSize ==> |r| <= pageSize
    ensures 1 <= page && 0 <= pageSize ==>
      forall i :: 0 <= i < |r| ==> PageStart(page, pageSize) + i < |filtered| && r[i] == filtered[PageStart(page, pageSize) + i]
    ensures 1 <= page && 0 <= pageSize ==>
      var st := PageStart(page, pageSize);
      && (st < |filtered| ==> r == filtered[st..if st + pageSize <= |filtered| then st + pageSize else |filtered|])
      && (|filtered| <= st ==> r == [])
  {
    PageOf(filtered, page, pageSize)
  }

  /** The latest change time among the hidden logs: the `reduce` that keeps
      the first time it meets and moves on only to a strictly later one. */
  function LatestHidden(hidden: seq<LogItem>, acc: Option<int>): (r: Option<int>)
    decreases |hidden|
    ensures r.None? <==> acc.None? && hidden == []
    ensures r.Some? ==> (acc.Some? && r.value == acc.value) || exists i :: 0 <= i < |hidden| && hidden[i].changeTime == r.value
    ensures r.Some? ==> (acc.None? || acc.value <= r.value) && forall i :: 0 <= i < |hidden| ==> hidden[i].changeTime <= r.value
  {
    if hidden == [] then acc
    else
      var ts := hidden[0].changeTime;
      var next := if acc.None? || ts > acc.value then Some(ts) else acc;
      var r := LatestHidden(hidden[1..], next);
      assert forall i :: 1 <= i < |hidden| ==> hidden[i] == hidden[1..][i - 1];
      r
  }

  /** `openRestoreModal`: no dialog when nothing is hidden; otherwise the
      range [d, d], d the start of the day of the latest hidden log. */
  function RestoreDefault(logs: seq<LogItem>, startOfDay: int -> int): (r: Option<(int, int)>)
    ensures r.None? <==> forall i :: 0 <= i < |logs| ==> !logs[i].hidden
    ensures r.Some? ==> r.value.0 == r.value.1
    ensures r.Some? ==> exists i :: 0 <= i < |logs| && logs[i].hidden && r.value.0 == startOfDay(logs[i].changeTime)
                                    && forall j :: 0 <= j < |logs| && logs[j].hidden ==> logs[j].changeTime <= logs[i].changeTime
  {
    var hiddenLogs := Filter(logs, (l: LogItem) => l.hidden);
    if |hiddenLogs| == 0 then
      FilterEmptyNoneHidden(logs);
      None
    else
      var latest := LatestHidden(hiddenLogs, None);
      var k :| 0 <= k < |hiddenLogs| && hiddenLogs[k].changeTime == latest.value;
      var i :| 0 <= i < |logs| && logs[i] == hiddenLogs[k];
      var d := startOfDay(latest.value);
      Some((d, d))
  }

  lemma FilterEmptyNoneHidden(logs: seq<LogItem>)
    requires |Filter(logs, (l: LogItem) => l.hidden)| == 0
    ensures forall i :: 0 <= i < |logs| ==> !logs[i].hidden
  {
    assert Filter(logs, (l: LogItem) => l.hidden) == [];
  }

  /** The service argument `deviceId || null`. */
  function DeviceArgument(deviceId: Option<int>): (r: Option<int>)
    ensures r.Some? <==> DeviceSelected(deviceId)
    ensures r.Some? ==> r == deviceId
  {
    if DeviceSelected(deviceId) then deviceId else None
  }

  /** `handleHideSelected`: nothing selected, nothing called; otherwise the
      selected ids are hidden and the list reloaded. */
  method HandleHideSelected(store: LocalDataService, selected: seq<int>, deviceId: Option<int>)
    returns (refreshed: Option<seq<LogItem>>)
    modifies store
    ensures store.devices == old(store.devices)
    ensures |selected| == 0 ==> refreshed.None? && store.logs == old(store.logs)
    ensures |selected| > 0 ==>
      && store.logs == SetHiddenWhere(old(store.logs), ById(set x | x in selected), true)
      && refreshed == Some(UpdateLogsResult(store.logs, DeviceArgument(deviceId)))
  {
    if |selected| == 0 {
      return None;
    }
    var _ := store.SetLogsHiddenByIds(selected, true);
    var logs := store.GetUpdateLogs(DeviceArgument(deviceId));
    refreshed := Some(logs);
  }

  /** `handleConfirmRestore`: with no range or both ends empty nothing is
      called; otherwise the hidden logs of the device inside [start of the
      first day, end of the last] are shown again, and the count returned. */
  method HandleConfirmRestore(store: LocalDataService, restoreRange: Option<(Option<int>, Option<int>)>,
                              deviceId: Option<int>, startOfDay: int -> int, endOfDay: int -> int)
    returns (restored: Option<nat>)
    modifies store
    ensures store.devices == old(store.devices)
    ensures (restoreRange.None? || (restoreRange.value.0.None? && restoreRange.value.1.None?))
            ==> restored.None? && store.logs == old(store.logs)
    ensures restoreRange.Some? && (restoreRange.value.0.Some? || restoreRange.value.1.Some?) ==>
      var start := if restoreRange.value.0.Some? then Some(startOfDay(restoreRange.value.0.value)) else None;
      var end := if restoreRange.value.1.Some? then Some(endOfDay(restoreRange.value.1.value)) else None;
      var p := InRange(DeviceArgument(deviceId), start, end, false);
      && store.logs == SetHiddenWhere(old(store.logs), p, false)
      && restored == Some(Count(old(store.logs), p))
  {
    if restoreRange.None? || (restoreRange.value.0.None? && restoreRange.value.1.None?) {
      return None;
    }
    var start := if restoreRange.value.0.Some? then Some(startOfDay(restoreRange.value.0.value)) else None;
    var end := if restoreRange.value.1.Some? then Some(endOfDay(restoreRange.value.1.value)) else None;
    var n := store.SetLogsHiddenByRange(DeviceArgument(deviceId), start, end, false);
    restored := Some(n);
  }

  /** Restoring over the default range of the dialog brings back at least the
      latest hidden log, for the view over all devices. */
  lemma RestoreDefaultRestores(logs: seq<LogItem>, startOfDay: int -> int, endOfDay: int -> int)
    requires forall t :: startOfDay(t) <= t <= endOfDay(startOfDay(t))
    requires RestoreDefault(logs, startOfDay).Some?
    ensures var d := RestoreDefault(logs, startOfDay).value;
      Count(logs, InRange(None, Some(startOfDay(d.0)), Some(endOfDay(d.1)), false)) > 0
  {
    var d := RestoreDefault(logs, startOfDay).value;
    var i :| 0 <= i < |logs| && logs[i].hidden && d.0 == startOfDay(logs[i].changeTime)
             && forall j :: 0 <= j < |logs| && logs[j].hidden ==> logs[j].changeTime <= logs[i].changeTime;
    var p := InRange(None, Some(startOfDay(d.0)), Some(endOfDay(d.1)), false);
    assert startOfDay(d.0) <= d.0;
    assert p(logs[i]);
    assert logs[i] in Filter(logs, p);
  }
}
