/** The change-log rules of `LocalDataService` (src/lib/localData.ts) as
    functions of the stored log list: the upsert of `addUpdateLog`, the
    "latest log per device" query of `getUpdateLogs`, and the hide/restore
    maps of `setLogsHiddenByIds` and `setLogsHiddenByRange`. */
module ChangeLog {
  import opened Wrappers
  import opened Seqs
  import opened Records

  /** The invariant `addUpdateLog` keeps: at most one log per device. */
  predicate OnePerDevice(logs: seq<LogItem>)
  {
    forall i, j :: 0 <= i < j < |logs| ==> logs[i].deviceId != logs[j].deviceId
  }

  /** No two logs share an id. */
  predicate UniqueIds(logs: seq<LogItem>)
  {
    forall i, j :: 0 <= i < j < |logs| ==> logs[i].id != logs[j].id
  }

  function SameDevice(deviceId: int): LogItem -> bool
  {
    (l: LogItem) => l.deviceId == deviceId
  }

  /** `Math.max(0, ...logs.map(l => l.id)) + 1`. */
  function NextLogId(logs: seq<LogItem>): (r: int)
    ensures 1 <= r
    ensures forall i :: 0 <= i < |logs| ==> logs[i].id < r
    ensures r == 1 || exists i :: 0 <= i < |logs| && logs[i].id == r - 1
  {
    MaxOrZero(logs, (l: LogItem) => l.id) + 1
  }

  /** `addUpdateLog` on the stored list: the new list and the log returned.
      The first log of the same device is overwritten in place, keeping its
      id; otherwise a log with a fresh id is appended. */
  function Upsert(logs: seq<LogItem>, input: LogInput): (r: (seq<LogItem>, LogItem))
    ensures r.1.deviceId == input.deviceId && r.1.changeTime == input.changeTime && r.1.sequence == 0
    ensures var found := FirstIndex(logs, SameDevice(input.deviceId));
      && (found.Some? ==>
            && |r.0| == |logs| && r.0[found.value] == r.1
            && r.1.id == logs[found.value].id && !r.1.hidden
            && forall j :: 0 <= j < |logs| && j != found.value ==> r.0[j] == logs[j])
      && (found.None? ==>
            && r.0 == logs + [r.1]
            && r.1.hidden == input.hidden.GetOr(false)
            && forall j :: 0 <= j < |logs| ==> logs[j].id < r.1.id)
  {
    match FirstIndex(logs, SameDevice(input.deviceId))
    case Some(i) =>
      var updated := Overwrite(logs[i], input);
      (logs[i := updated], updated)
    case None =>
      var appended := Fresh(NextLogId(logs), input);
      (logs + [appended], appended)
  }

  /** The upsert keeps at most one log per device, and afterwards the
      input's device has exactly its log. */
  lemma UpsertOnePerDevice(logs: seq<LogItem>, input: LogInput)
    requires OnePerDevice(logs)
    ensures OnePerDevice(Upsert(logs, input).0)
    ensures Upsert(logs, input).1 in Upsert(logs, input).0
  {
    var r := Upsert(logs, input).0;
    var found := FirstIndex(logs, SameDevice(input.deviceId));
    if found.None? {
      forall i, j | 0 <= i < j < |r|
        ensures r[i].deviceId != r[j].deviceId
      {
        if j == |logs| {
          assert !SameDevice(input.deviceId)(logs[i]);
        }
      }
    } else {
      var k := found.value;
      forall i, j | 0 <= i < j < |r|
        ensures r[i].deviceId != r[j].deviceId
      {
        if i == k {
          assert logs[j].deviceId != logs[k].deviceId;
        } else if j == k {
          assert logs[i].deviceId != logs[k].deviceId;
        }
      }
    }
  }

  /** Ids stay unique: an overwrite keeps the id, an append takes a fresh one. */
  lemma UpsertUniqueIds(logs: seq<LogItem>, input: LogInput)
    requires UniqueIds(logs)
    ensures UniqueIds(Upsert(logs, input).0)
  {
    var r := Upsert(logs, input).0;
    var found := FirstIndex(logs, SameDevice(input.deviceId));
    if found.Some? {
      var k := found.value;
      forall i, j | 0 <= i < j < |r|
        ensures r[i].id != r[j].id
      {
        if i == k {
          assert logs[j].id != logs[k].id;
        } else if j == k {
          assert logs[i].id != logs[k].id;
        }
      }
    }
  }

  // ---- getUpdateLogs ----

  /** The step of both the `reduce` and the Map loop: the accumulated log
      stays unless the current one is strictly later. */
  function Newer(acc: LogItem, cur: LogItem): LogItem
  {
    if acc.changeTime >= cur.changeTime then acc else cur
  }

  /** `s.reduce(Newer)`: a log of `s` whose time no other log of `s` exceeds. */
  function LatestOf(s: seq<LogItem>): (r: LogItem)
    requires s != []
    decreases |s|
    ensures r in s
    ensures forall i :: 0 <= i < |s| ==> s[i].changeTime <= r.changeTime
  {
    if |s| == 1 then s[0]
    else
      var prefix := s[..|s| - 1];
      var acc := LatestOf(prefix);
      assert forall i :: 0 <= i < |s| - 1 ==> s[i] == prefix[i];
      Newer(acc, s[|s| - 1])
  }

  /** On a tie the `reduce` keeps the earliest: every log before the one
      picked is strictly older. */
  lemma {:induction false} LatestOfEarliest(s: seq<LogItem>)
    requires s != []
    ensures exists k :: 0 <= k < |s| && s[k] == LatestOf(s) && forall j :: 0 <= j < k ==> s[j].changeTime < LatestOf(s).changeTime
    decreases |s|
  {
    if |s| > 1 {
      var prefix := s[..|s| - 1];
      LatestOfEarliest(prefix);
      var k :| 0 <= k < |prefix| && prefix[k] == LatestOf(prefix)
               && forall j :: 0 <= j < k ==> prefix[j].changeTime < LatestOf(prefix).changeTime;
      assert forall i :: 0 <= i < |s| - 1 ==> s[i] == prefix[i];
      if LatestOf(prefix).changeTime < s[|s| - 1].changeTime {
        assert LatestOf(s) == s[|s| - 1];
        assert forall j :: 0 <= j < |s| - 1 ==> s[j].changeTime < LatestOf(s).changeTime;
      } else {
        assert LatestOf(s) == s[k];
        assert forall j :: 0 <= j < k ==> s[j].changeTime < LatestOf(s).changeTime;
      }
    } else {
      assert s[0] == LatestOf(s);
    }
  }

  /** The values of the `byDevice` Map after the loop over `logs`, in the
      Map's insertion order: a device enters at its first log and its entry
      is replaced only by a strictly later one. */
  function LatestPerDevice(logs: seq<LogItem>): seq<LogItem>
    decreases |logs|
  {
    if logs == [] then []
    else
      var prev := LatestPerDevice(logs[..|logs| - 1]);
      var l := logs[|logs| - 1];
      match FirstIndex(prev, SameDevice(l.deviceId))
      case Some(j) => prev[j := Newer(prev[j], l)]
      case None => prev + [l]
  }

  function ForDevice(logs: seq<LogItem>, deviceId: int): seq<LogItem>
  {
    Filter(logs, SameDevice(deviceId))
  }

  lemma ForDeviceSnoc(init: seq<LogItem>, l: LogItem, deviceId: int)
    ensures ForDevice(init + [l], deviceId) == ForDevice(init, deviceId) + (if l.deviceId == deviceId then [l] else [])
  {
    FilterSnoc(init, l, SameDevice(deviceId));
  }

  /** Every entry of `r` is one of `logs`. */
  predicate Within(r: seq<LogItem>, logs: seq<LogItem>)
  {
    forall j :: 0 <= j < |r| ==> r[j] in logs
  }

  /** Every device of `logs` has an entry in `r`. */
  predicate Covers(r: seq<LogItem>, logs: seq<LogItem>)
  {
    forall i :: 0 <= i < |logs| ==> exists j :: 0 <= j < |r| && r[j].deviceId == logs[i].deviceId
  }

  /** The query without a device has one entry per device of the stored
      logs, each taken from the stored list. */
  lemma LatestPerDeviceKeys(logs: seq<LogItem>)
    ensures OnePerDevice(LatestPerDevice(logs))
    ensures Within(LatestPerDevice(logs), logs)
    ensures Covers(LatestPerDevice(logs), logs)
  {
    LatestPerDeviceDistinct(logs);
    LatestPerDeviceWithin(logs);
    LatestPerDeviceCovers(logs);
  }

  lemma {:induction false} LatestPerDeviceDistinct(logs: seq<LogItem>)
    ensures OnePerDevice(LatestPerDevice(logs))
    decreases |logs|
  {
    if logs != [] {
      var init := logs[..|logs| - 1];
      var l := logs[|logs| - 1];
      LatestPerDeviceDistinct(init);
      var prev := LatestPerDevice(init);
      var r := LatestPerDevice(logs);
      match FirstIndex(prev, SameDevice(l.deviceId))
      case Some(k) =>
        assert r == prev[k := Newer(prev[k], l)];
        assert forall j :: 0 <= j < |r| ==> r[j].deviceId == prev[j].deviceId;
      case None =>
        assert r == prev + [l];
        forall i, j | 0 <= i < j < |r|
          ensures r[i].deviceId != r[j].deviceId
        {
          if j == |prev| {
            assert !SameDevice(l.deviceId)(prev[i]);
          }
        }
    }
  }

  lemma {:induction false} LatestPerDeviceWithin(logs: seq<LogItem>)
    ensures Within(LatestPerDevice(logs), logs)
    decreases |logs|
  {
    if logs != [] {
      var init := logs[..|logs| - 1];
      var l := logs[|logs| - 1];
      assert logs == init + [l];
      LatestPerDeviceWithin(init);
      var prev := LatestPerDevice(init);
      var r := LatestPerDevice(logs);
      forall j | 0 <= j < |r|
        ensures r[j] in logs
      {
        match FirstIndex(prev, SameDevice(l.deviceId))
        case Some(k) =>
          assert r[j] == prev[j] || r[j] == l;
          if r[j] == prev[j] {
            assert prev[j] in init;
          }
        case None =>
          if j < |prev| {
            assert r[j] == prev[j] && prev[j] in init;
          }
      }
    }
  }

  lemma {:induction false} LatestPerDeviceCovers(logs: seq<LogItem>)
    ensures Covers(LatestPerDevice(logs), logs)
    decreases |logs|
  {
    if logs != [] {
      var init := logs[..|logs| - 1];
      var l := logs[|logs| - 1];
      LatestPerDeviceCovers(init);
      var prev := LatestPerDevice(init);
      var r := LatestPerDevice(logs);
      var found := FirstIndex(prev, SameDevice(l.deviceId));
      assert |prev| <= |r|;
      assert forall j :: 0 <= j < |prev| ==> r[j].deviceId == prev[j].deviceId;
      forall i | 0 <= i < |logs|
        ensures exists j :: 0 <= j < |r| && r[j].deviceId == logs[i].deviceId
      {
        if i < |init| {
          assert logs[i] == init[i];
          var j :| 0 <= j < |prev| && prev[j].deviceId == init[i].deviceId;
          assert r[j].deviceId == logs[i].deviceId;
        } else if found.Some? {
          assert r[found.value].deviceId == logs[i].deviceId;
        } else {
          assert r == prev + [l];
          assert r[|prev|].deviceId == logs[i].deviceId;
        }
      }
    }
  }

  /** `x` is the latest log of its device in `logs`, the earliest on a tie. */
  predicate IsLatestEntry(logs: seq<LogItem>, x: LogItem)
  {
    ForDevice(logs, x.deviceId) != [] && x == LatestOf(ForDevice(logs, x.deviceId))
  }

  lemma EntryKeep(init: seq<LogItem>, l: LogItem, x: LogItem)
    requires IsLatestEntry(init, x) && x.deviceId != l.deviceId
    ensures IsLatestEntry(init + [l], x)
  {
    ForDeviceSnoc(init, l, x.deviceId);
    assert ForDevice(init + [l], x.deviceId) == ForDevice(init, x.deviceId) + [];
    assert ForDevice(init, x.deviceId) + [] == ForDevice(init, x.deviceId);
  }

  lemma EntryUpdate(init: seq<LogItem>, l: LogItem, x: LogItem)
    requires IsLatestEntry(init, x) && x.deviceId == l.deviceId
    ensures IsLatestEntry(init + [l], Newer(x, l))
  {
    ForDeviceSnoc(init, l, x.deviceId);
    var c := ForDevice(init, x.deviceId);
    assert (c + [l])[..|c + [l]| - 1] == c;
  }

  lemma EntryNew(init: seq<LogItem>, l: LogItem)
    requires forall i :: 0 <= i < |init| ==> init[i].deviceId != l.deviceId
    ensures IsLatestEntry(init + [l], l)
  {
    ForDeviceSnoc(init, l, l.deviceId);
    FilterNone(init, SameDevice(l.deviceId));
  }

  /** Each entry of the query without a device is its device's latest log,
      the earliest of them on a tie: what the `reduce` of the query with a
      device picks from that device's logs. */
  lemma {:induction false} LatestPerDeviceEntries(logs: seq<LogItem>)
    ensures forall j :: 0 <= j < |LatestPerDevice(logs)| ==> IsLatestEntry(logs, LatestPerDevice(logs)[j])
    decreases |logs|
  {
    if logs != [] {
      var init := logs[..|logs| - 1];
      var l := logs[|logs| - 1];
      assert logs == init + [l];
      LatestPerDeviceEntries(init);
      var prev := LatestPerDevice(init);
      match FirstIndex(prev, SameDevice(l.deviceId))
      case Some(k) =>
        LatestPerDeviceDistinct(init);
        EntriesUpdated(init, l, prev, k);
      case None =>
        forall j | 0 <= j < |prev|
          ensures prev[j].deviceId != l.deviceId
        {
          assert !SameDevice(l.deviceId)(prev[j]);
        }
        LatestPerDeviceCovers(init);
        EntriesAppended(init, l, prev);
    }
  }

  /** Every entry of `r` is its device's latest log in `logs`. */
  predicate AllLatest(logs: seq<LogItem>, r: seq<LogItem>)
  {
    forall j :: 0 <= j < |r| ==> IsLatestEntry(logs, r[j])
  }

  /** A log of a device that has an entry: that entry becomes the newer of the two. */
  lemma EntriesUpdated(init: seq<LogItem>, l: LogItem, prev: seq<LogItem>, k: nat)
    requires forall j :: 0 <= j < |prev| ==> IsLatestEntry(init, prev[j])
    requires OnePerDevice(prev) && k < |prev| && prev[k].deviceId == l.deviceId
    ensures AllLatest(init + [l], prev[k := Newer(prev[k], l)])
  {
    var r := prev[k := Newer(prev[k], l)];
    forall j | 0 <= j < |r|
      ensures IsLatestEntry(init + [l], r[j])
    {
      if j == k {
        EntryUpdate(init, l, prev[k]);
      } else {
        assert prev[j].deviceId != prev[k].deviceId;
        EntryKeep(init, l, prev[j]);
      }
    }
  }

  /** A log of a device without an entry: it is appended as that device's entry. */
  lemma EntriesAppended(init: seq<LogItem>, l: LogItem, prev: seq<LogItem>)
    requires forall j :: 0 <= j < |prev| ==> IsLatestEntry(init, prev[j])
    requires Covers(prev, init)
    requires forall j :: 0 <= j < |prev| ==> prev[j].deviceId != l.deviceId
    ensures AllLatest(init + [l], prev + [l])
  {
    var r := prev + [l];
    forall j | 0 <= j < |prev|
      ensures IsLatestEntry(init + [l], r[j])
    {
      EntryKeep(init, l, prev[j]);
    }
    forall i | 0 <= i < |init|
      ensures init[i].deviceId != l.deviceId
    {
      var m :| 0 <= m < |prev| && prev[m].deviceId == init[i].deviceId;
    }
    EntryNew(init, l);
  }

  /** A log is selected by `params?.deviceId` when the id is present and not 0. */
  predicate DeviceSelected(deviceId: Option<int>)
  {
    deviceId.Some? && deviceId.value != 0
  }

  /** The entries `getUpdateLogs` collects before sorting. */
  function LatestQuery(logs: seq<LogItem>, deviceId: Option<int>): seq<LogItem>
  {
    if DeviceSelected(deviceId) then
      var candidates := ForDevice(logs, deviceId.value);
      if |candidates| > 0 then [LatestOf(candidates)] else []
    else LatestPerDevice(logs)
  }

  /** With a device selected the query gives that device's entry of the
      query without one: at most one log, and none for a device without logs. */
  lemma QueryOneDevice(logs: seq<LogItem>, deviceId: int)
    requires deviceId != 0
    ensures LatestQuery(logs, Some(deviceId)) == ForDevice(LatestPerDevice(logs), deviceId)
    ensures |LatestQuery(logs, Some(deviceId))| <= 1
  {
    match FirstIndex(LatestPerDevice(logs), SameDevice(deviceId))
    case None => QueryDeviceWithoutLogs(logs, deviceId);
    case Some(k) => QueryDeviceWithLogs(logs, deviceId, k);
  }

  lemma QueryDeviceWithoutLogs(logs: seq<LogItem>, deviceId: int)
    requires deviceId != 0
    requires forall j :: 0 <= j < |LatestPerDevice(logs)| ==> !SameDevice(deviceId)(LatestPerDevice(logs)[j])
    ensures LatestQuery(logs, Some(deviceId)) == [] == ForDevice(LatestPerDevice(logs), deviceId)
  {
    var r := LatestPerDevice(logs);
    FilterNone(r, SameDevice(deviceId));
    LatestPerDeviceCovers(logs);
    forall i | 0 <= i < |logs|
      ensures !SameDevice(deviceId)(logs[i])
    {
      var j :| 0 <= j < |r| && r[j].deviceId == logs[i].deviceId;
      assert !SameDevice(deviceId)(r[j]);
    }
    FilterNone(logs, SameDevice(deviceId));
  }

  lemma QueryDeviceWithLogs(logs: seq<LogItem>, deviceId: int, k: nat)
    requires deviceId != 0
    requires k < |LatestPerDevice(logs)| && LatestPerDevice(logs)[k].deviceId == deviceId
    ensures LatestQuery(logs, Some(deviceId)) == [LatestPerDevice(logs)[k]] == ForDevice(LatestPerDevice(logs), deviceId)
  {
    var r := LatestPerDevice(logs);
    LatestPerDeviceEntries(logs);
    assert IsLatestEntry(logs, r[k]);
    LatestPerDeviceDistinct(logs);
    OneMatch(r, k, deviceId);
  }

  /** In a list with one entry per device, filtering by the device of entry k leaves entry k. */
  lemma {:induction false} OneMatch(r: seq<LogItem>, k: nat, deviceId: int)
    requires OnePerDevice(r) && k < |r| && r[k].deviceId == deviceId
    ensures ForDevice(r, deviceId) == [r[k]]
  {
    assert r == r[..k] + [r[k]] + r[k + 1..];
    FilterConcat(r[..k] + [r[k]], r[k + 1..], SameDevice(deviceId));
    FilterConcat(r[..k], [r[k]], SameDevice(deviceId));
    assert forall i :: 0 <= i < k ==> r[..k][i] == r[i];
    FilterNone(r[..k], SameDevice(deviceId));
    var suffix := r[k + 1..];
    forall i | 0 <= i < |suffix|
      ensures !SameDevice(deviceId)(suffix[i])
    {
      assert suffix[i] == r[k + 1 + i];
    }
    FilterNone(r[k + 1..], SameDevice(deviceId));
  }

  /** The comparator `(a, b) => b.change_time.localeCompare(a.change_time)` as an ascending key. */
  function ByTimeDesc(l: LogItem): int
  {
    -l.changeTime
  }

  /** `result.map((item, idx) => ({ ...item, sequence: idx + 1 }))`. */
  function Renumber(s: seq<LogItem>): (r: seq<LogItem>)
    ensures |r| == |s|
    ensures forall i :: 0 <= i < |s| ==> r[i] == s[i].(sequence := i + 1)
  {
    seq(|s|, i requires 0 <= i < |s| => s[i].(sequence := i + 1))
  }

  /** What `getUpdateLogs` returns: newest first, numbered 1..n, one entry
      per device and at most one when a device is selected, each a collected
      entry with only its sequence changed. */
  function UpdateLogsResult(logs: seq<LogItem>, deviceId: Option<int>): (r: seq<LogItem>)
    ensures |r| == |LatestQuery(logs, deviceId)|
    ensures NewestFirst(r)
    ensures forall i :: 0 <= i < |r| ==> r[i].sequence == i + 1
    ensures forall i :: 0 <= i < |r| ==>
      exists k :: 0 <= k < |LatestQuery(logs, deviceId)| && r[i] == LatestQuery(logs, deviceId)[k].(sequence := i + 1)
    ensures OnePerDevice(r)
    ensures DeviceSelected(deviceId) ==> |r| <= 1
  {
    var base := LatestQuery(logs, deviceId);
    BaseOnePerDevice(logs, deviceId);
    SortRenumberSpec(base);
    Renumber(SortBy(base, ByTimeDesc))
  }

  lemma BaseOnePerDevice(logs: seq<LogItem>, deviceId: Option<int>)
    ensures OnePerDevice(LatestQuery(logs, deviceId))
    ensures DeviceSelected(deviceId) ==> |LatestQuery(logs, deviceId)| <= 1
  {
    if DeviceSelected(deviceId) {
      QueryOneDevice(logs, deviceId.value);
    } else {
      LatestPerDeviceKeys(logs);
    }
  }

  /** Sorting newest first and renumbering keeps the entries and one per device. */
  lemma SortRenumberSpec(base: seq<LogItem>)
    requires OnePerDevice(base)
    ensures |Renumber(SortBy(base, ByTimeDesc))| == |base|
    ensures NewestFirst(Renumber(SortBy(base, ByTimeDesc)))
    ensures forall i :: 0 <= i < |base| ==>
      exists k :: 0 <= k < |base| && Renumber(SortBy(base, ByTimeDesc))[i] == base[k].(sequence := i + 1)
    ensures OnePerDevice(Renumber(SortBy(base, ByTimeDesc)))
  {
    var sorted := SortBy(base, ByTimeDesc);
    SortedNewestFirst(sorted);
    SortedFromBase(base);
    PermutationKeepsOnePerDevice(base, sorted);
    var r := Renumber(sorted);
    assert forall i :: 0 <= i < |r| ==> r[i].deviceId == sorted[i].deviceId;
  }

  predicate NewestFirst(r: seq<LogItem>)
  {
    forall i, j :: 0 <= i < j < |r| ==> r[j].changeTime <= r[i].changeTime
  }

  lemma SortedNewestFirst(sorted: seq<LogItem>)
    requires SortedBy(sorted, ByTimeDesc)
    ensures NewestFirst(Renumber(sorted))
  {
    var r := Renumber(sorted);
    forall i, j | 0 <= i < j < |r|
      ensures r[j].changeTime <= r[i].changeTime
    {
      assert ByTimeDesc(sorted[i]) <= ByTimeDesc(sorted[j]);
    }
  }

  lemma SortedFromBase(base: seq<LogItem>)
    ensures forall i :: 0 <= i < |base| ==>
      exists k :: 0 <= k < |base| && Renumber(SortBy(base, ByTimeDesc))[i] == base[k].(sequence := i + 1)
  {
    var sorted := SortBy(base, ByTimeDesc);
    var r := Renumber(sorted);
    forall i | 0 <= i < |base|
      ensures exists k :: 0 <= k < |base| && r[i] == base[k].(sequence := i + 1)
    {
      assert sorted[i] in multiset(base);
      var k :| 0 <= k < |base| && base[k] == sorted[i];
      assert r[i] == base[k].(sequence := i + 1);
    }
  }

  /** Reordering a list with one entry per device keeps one entry per device. */
  lemma PermutationKeepsOnePerDevice(a: seq<LogItem>, b: seq<LogItem>)
    requires OnePerDevice(a) && multiset(a) == multiset(b)
    ensures OnePerDevice(b)
  {
    forall i, j | 0 <= i < j < |b|
      ensures b[i].deviceId != b[j].deviceId
    {
      assert b[i] in multiset(a) && b[j] in multiset(a);
      var p :| 0 <= p < |a| && a[p] == b[i];
      var q :| 0 <= q < |a| && a[q] == b[j];
      OccursOnce(a, p);
      OnceMeansDistinct(b, i, j);
      assert p != q;
    }
  }

  /** With one entry per device no entry occurs twice. */
  lemma OccursOnce(a: seq<LogItem>, p: nat)
    requires OnePerDevice(a) && p < |a|
    ensures multiset(a)[a[p]] == 1
  {
    assert a == a[..p] + [a[p]] + a[p + 1..];
    forall i | 0 <= i < p
      ensures a[..p][i] != a[p]
    {
      assert a[..p][i] == a[i];
    }
    var suffix := a[p + 1..];
    forall i | 0 <= i < |suffix|
      ensures suffix[i] != a[p]
    {
      assert suffix[i] == a[p + 1 + i];
    }
    assert a[p] !in multiset(a[..p]) && a[p] !in multiset(a[p + 1..]);
  }

  lemma OnceMeansDistinct(b: seq<LogItem>, i: nat, j: nat)
    requires i < j < |b| && multiset(b)[b[i]] == 1
    ensures b[i] != b[j]
  {
    assert b == b[..i] + [b[i]] + b[i + 1..j] + [b[j]] + b[j + 1..];
  }

  // ---- setLogsHiddenByIds / setLogsHiddenByRange ----

  /** The `logs.map` of both hide operations: the logs `p` selects take `hidden`. */
  function SetHiddenWhere(logs: seq<LogItem>, p: LogItem -> bool, hidden: bool): seq<LogItem>
  {
    seq(|logs|, i requires 0 <= i < |logs| => if p(logs[i]) then logs[i].(hidden := hidden) else logs[i])
  }

  /** `setLogsHiddenByIds` selects every log whose id is in the set, in the target state or not. */
  function ById(ids: set<int>): LogItem -> bool
  {
    (l: LogItem) => l.id in ids
  }

  /** `setLogsHiddenByRange` selects the logs not yet in the target state, of the
      device when `deviceId` is truthy, with `start <= change_time <= end`, an
      absent bound being no bound. */
  function InRange(deviceId: Option<int>, start: Option<int>, end: Option<int>, hidden: bool): LogItem -> bool
  {
    (l: LogItem) =>
      && l.hidden != hidden
      && (!DeviceSelected(deviceId) || l.deviceId == deviceId.value)
      && (start.None? || start.value <= l.changeTime)
      && (end.None? || l.changeTime <= end.value)
  }

  /** By id: exactly the logs in the set now have the wanted state, every other
      log and the length are unchanged, and the count is the number selected. */
  lemma HiddenByIdsSpec(logs: seq<LogItem>, ids: set<int>, hidden: bool)
    ensures var r := SetHiddenWhere(logs, ById(ids), hidden);
      && |r| == |logs|
      && (forall i :: 0 <= i < |r| && logs[i].id in ids ==> r[i] == logs[i].(hidden := hidden))
      && (forall i :: 0 <= i < |r| && logs[i].id !in ids ==> r[i] == logs[i])
      && (ids == {} ==> r == logs && Count(logs, ById(ids)) == 0)
  {
    if ids == {} {
      FilterNone(logs, ById(ids));
    }
  }

  /** By range: a log changes exactly when it is selected, so the count is
      the number of logs that changed. */
  lemma HiddenByRangeSpec(logs: seq<LogItem>, deviceId: Option<int>, start: Option<int>, end: Option<int>, hidden: bool)
    ensures var r := SetHiddenWhere(logs, InRange(deviceId, start, end, hidden), hidden);
      && |r| == |logs|
      && (forall i :: 0 <= i < |r| ==> (r[i] != logs[i] <==> InRange(deviceId, start, end, hidden)(logs[i])))
      && (forall i :: 0 <= i < |r| && r[i] != logs[i] ==> r[i] == logs[i].(hidden := hidden))
  {
  }

  /** Running the same range operation twice: the second changes nothing and counts 0. */
  lemma HiddenByRangeIdempotent(logs: seq<LogItem>, deviceId: Option<int>, start: Option<int>, end: Option<int>, hidden: bool)
    ensures var p := InRange(deviceId, start, end, hidden);
      var once := SetHiddenWhere(logs, p, hidden);
      && SetHiddenWhere(once, p, hidden) == once
      && Count(once, p) == 0
  {
    var p := InRange(deviceId, start, end, hidden);
    var once := SetHiddenWhere(logs, p, hidden);
    assert forall i :: 0 <= i < |once| ==> once[i].hidden == hidden || !p(logs[i]);
    FilterNone(once, p);
  }
}
