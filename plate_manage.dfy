/** The plate table page (src/pages/PlateManage.tsx): how its seven filter
    inputs become the store's filter, the change-type filter it applies
    itself, the page it shows, the jump-to-page box, the merge of a device
    update into the loaded list, and the rule for opening the adjust dialog. */
module PlateManage {
  import opened Wrappers
  import opened Seqs
  import opened Records
  import opened LocalData

  /** The only change type the loaded devices have. */
  const MANUAL: string := "手动变更"

  const DEFAULT_PAGE_SIZE: int := 10
  const PAGE_SIZES: seq<int> := [10, 20, 50, 100]

  const SELECT_ONE: string := "请选择一条记录进行调整"
  const NO_SUCH_DEVICE: string := "未找到对应的设备数据"

  /** The seven filter inputs of the page; an empty string is an input left blank. */
  datatype UiFilters = UiFilters(
    protectionScreen: string,
    deviceIssue: string,
    plateName: string,
    plateType: string,
    status: string,
    changeType: string,
    changeSource: string)

  const EMPTY_UI: UiFilters := UiFilters("", "", "", "", "", "", "")

  /** The store filter the page asks for: the filled-in inputs under the
      store's names, the change type not among them. */
  function ServiceFilter(f: UiFilters): (p: DeviceFilter)
    ensures p.pressurePlateName == f.plateName && p.pressurePlateStatus == f.status
    ensures p.lastChangedBy == f.changeSource
  {
    DeviceFilter(f.protectionScreen, f.deviceIssue, f.plateName, f.plateType, f.status, f.changeSource)
  }

  /** `filterParams`, one field set for each input that is not blank. */
  method FilterParams(f: UiFilters) returns (p: DeviceFilter)
    ensures p == ServiceFilter(f)
  {
    p := NO_FILTER;
    if f.protectionScreen != "" { p := p.(protectionScreen := f.protectionScreen); }
    if f.deviceIssue != "" { p := p.(deviceIssue := f.deviceIssue); }
    if f.plateName != "" { p := p.(pressurePlateName := f.plateName); }
    if f.plateType != "" { p := p.(plateType := f.plateType); }
    if f.status != "" { p := p.(pressurePlateStatus := f.status); }
    if f.changeSource != "" { p := p.(lastChangedBy := f.changeSource); }
  }

  /** The change type never reaches the store: two input sets that differ
      only in it ask the store for the same devices. */
  lemma ChangeTypeNotPassed(f: UiFilters, g: UiFilters)
    requires f.(changeType := g.changeType) == g
    ensures ServiceFilter(f) == ServiceFilter(g)
  {
  }

  /** With every input blank the store is asked for every device. */
  lemma BlankInputsMatchAll(d: Device)
    ensures Matches(ServiceFilter(EMPTY_UI), d)
  {
  }

  /** The change-type filter applied to what the store returned: a blank
      input or the manual type keeps the list, any other type empties it. */
  method PostFilter(list: seq<Device>, changeType: string) returns (r: seq<Device>)
    ensures changeType == "" || changeType == MANUAL ==> r == list
    ensures changeType != "" && changeType != MANUAL ==> r == []
  {
    r := list;
    if changeType != "" {
      if changeType == MANUAL {
        r := r;
      } else {
        r := [];
      }
    }
  }

  /** `updateDeviceStatus`: `{ ...device, ...updatedDevice }` for the devices with the id. */
  function MergeById(devices: seq<Device>, id: int, updated: Device): (r: seq<Device>)
    ensures |r| == |devices|
    ensures forall i :: 0 <= i < |devices| && devices[i].id != id ==> r[i] == devices[i]
    ensures forall i :: 0 <= i < |devices| && devices[i].id == id ==>
      r[i] == updated.(pressurePlateStatus := Over(updated.pressurePlateStatus, devices[i].pressurePlateStatus),
                       lastChangedBy := Over(updated.lastChangedBy, devices[i].lastChangedBy),
                       lastChangedAt := Over(updated.lastChangedAt, devices[i].lastChangedAt),
                       changeRemarks := Over(updated.changeRemarks, devices[i].changeRemarks),
                       createdAt := Over(updated.createdAt, devices[i].createdAt),
                       updatedAt := Over(updated.updatedAt, devices[i].updatedAt))
  {
    var r := seq(|devices|, i requires 0 <= i < |devices| =>
                   if devices[i].id == id then Merge(devices[i], AsPatch(updated)) else devices[i]);
    forall i | 0 <= i < |devices| && devices[i].id == id
      ensures r[i] == Merge(devices[i], AsPatch(updated))
    {
      MergeWhole(devices[i], updated);
    }
    r
  }

  /** Applying the same update twice is applying it once. */
  lemma MergeByIdIdempotent(devices: seq<Device>, id: int, updated: Device)
    ensures MergeById(MergeById(devices, id, updated), id, updated) == MergeById(devices, id, updated)
  {
    var once := MergeById(devices, id, updated);
    var twice := MergeById(once, id, updated);
    forall i | 0 <= i < |devices|
      ensures twice[i] == once[i]
    {
      if devices[i].id == id {
        MergeWhole(devices[i], updated);
        MergeWhole(once[i], updated);
      }
    }
  }

  /** An update that keeps the id keeps every id in place. */
  lemma MergeByIdKeepsIds(devices: seq<Device>, id: int, updated: Device)
    requires updated.id == id
    ensures forall i :: 0 <= i < |devices| ==> MergeById(devices, id, updated)[i].id == devices[i].id
  {
  }

  /** `Math.max(1, Math.ceil(total / pageSize))`: the last page, one when there is nothing to show. */
  function LastPage(total: nat, pageSize: int): (r: int)
    requires pageSize >= 1
    ensures r >= 1
    ensures total <= r * pageSize
    ensures r == 1 || (r - 1) * pageSize < total
  {
    if total == 0 then 1 else (total + pageSize - 1) / pageSize
  }

  /** What `Number(e.target.value || 1)` makes of the jump box: the blank box is 1. */
  datatype JumpInput = Blank | Numeric(v: int) | NotANumber

  /** The page the jump box goes to: its number, a non-number being 1, clamped to the pages there are. */
  function JumpTarget(input: JumpInput, total: nat, pageSize: int): (r: int)
    requires pageSize >= 1
    ensures 1 <= r <= LastPage(total, pageSize)
    ensures input.Numeric? && 1 <= input.v <= LastPage(total, pageSize) ==> r == input.v
    ensures input.Numeric? && input.v > LastPage(total, pageSize) ==> r == LastPage(total, pageSize)
    ensures !input.Numeric? || input.v < 1 ==> r == 1
  {
    var v := if input.Numeric? then input.v else 1;
    var last := LastPage(total, pageSize);
    var capped := if v < last then v else last;
    if 1 < capped then capped else 1
  }

  /** The page the jump lands on shows at least one row whenever there are rows. */
  lemma JumpShowsRows<T>(rows: seq<T>, input: JumpInput, pageSize: int)
    requires pageSize >= 1 && rows != []
    ensures PageOf(rows, JumpTarget(input, |rows|, pageSize), pageSize) != []
  {
    var p := JumpTarget(input, |rows|, pageSize);
    var start := PageStart(p, pageSize);
    assert start < |rows| by {
      if p == LastPage(|rows|, pageSize) {
      } else {
        LastPageBound(p, LastPage(|rows|, pageSize), pageSize);
      }
    }
    assert PageOf(rows, p, pageSize) == JsSlice(rows, start, start + pageSize);
  }

  lemma LastPageBound(p: int, last: int, pageSize: int)
    requires 1 <= p < last && pageSize >= 1
    ensures PageStart(p, pageSize) < PageStart(last, pageSize)
  {
  }

  /** `devices.find(d => d.id === key)`: the first loaded device with the key, or none when no device has it. */
  function RowWithKey(ds: seq<Device>, key: int): (r: Option<Device>)
    ensures r.None? <==> forall i :: 0 <= i < |ds| ==> ds[i].id != key
    ensures r.Some? ==>
      exists i :: 0 <= i < |ds| && ds[i] == r.value && ds[i].id == key && forall j :: 0 <= j < i ==> ds[j].id != key
  {
    var isKey := (d: Device) => d.id == key;
    assert forall i :: 0 <= i < |ds| ==> isKey(ds[i]) == (ds[i].id == key);
    Find(ds, isKey)
  }

  /** The page as the table holds it between calls. */
  class PlateManagePage {
    var devices: seq<Device>
    var filters: UiFilters
    var page: int
    var pageSize: int
    var selectedRowKeys: seq<int>
    var selectedDevice: Option<Device>
    var adjustOpen: bool
    var notice: Option<string>

    /** The page number and the page size stay positive. */
    predicate Valid()
      reads this
    {
      page >= 1 && pageSize >= 1
    }

    constructor()
      ensures Valid()
      ensures devices == [] && filters == EMPTY_UI && page == 1 && pageSize == DEFAULT_PAGE_SIZE
      ensures selectedRowKeys == [] && selectedDevice.None? && !adjustOpen && notice.None?
    {
      devices := [];
      filters := EMPTY_UI;
      page := 1;
      pageSize := DEFAULT_PAGE_SIZE;
      selectedRowKeys := [];
      selectedDevice := None;
      adjustOpen := false;
      notice := None;
    }

    /** `pagedData`: the rows from `(page - 1) * pageSize` up to `page * pageSize`. */
    function PagedData(): (r: seq<Device>)
      reads this
      requires Valid()
      ensures |r| <= pageSize
      ensures forall i :: 0 <= i < |r| ==> PageStart(page, pageSize) + i < |devices| && r[i] == devices[PageStart(page, pageSize) + i]
      ensures PageStart(page, pageSize) + pageSize <= |devices| ==> |r| == pageSize
      ensures var st := PageStart(page, pageSize);
        && (st < |devices| ==> r == devices[st..if st + pageSize <= |devices| then st + pageSize else |devices|])
        && (|devices| <= st ==> r == [])
    {
      PageOf(devices, page, pageSize)
    }

    /** `handleReset`: every input blank and back to the first page. */
    method Reset()
      requires Valid()
      modifies this
      ensures Valid()
      ensures filters == EMPTY_UI && page == 1
      ensures devices == old(devices) && pageSize == old(pageSize) && selectedRowKeys == old(selectedRowKeys)
      ensures selectedDevice == old(selectedDevice) && adjustOpen == old(adjustOpen) && notice == old(notice)
    {
      filters := EMPTY_UI;
      page := 1;
    }

    /** The page-size selector: the new size and back to the first page. */
    method ChangePageSize(v: int)
      requires Valid() && v in PAGE_SIZES
      modifies this
      ensures Valid()
      ensures pageSize == v && page == 1
      ensures devices == old(devices) && filters == old(filters) && selectedRowKeys == old(selectedRowKeys)
      ensures selectedDevice == old(selectedDevice) && adjustOpen == old(adjustOpen) && notice == old(notice)
    {
      pageSize := v;
      page := 1;
    }

    /** The pager's own page change. */
    method SetPage(p: int)
      requires Valid() && p >= 1
      modifies this
      ensures Valid()
      ensures page == p
      ensures devices == old(devices) && filters == old(filters) && pageSize == old(pageSize)
      ensures selectedRowKeys == old(selectedRowKeys) && selectedDevice == old(selectedDevice)
      ensures adjustOpen == old(adjustOpen) && notice == old(notice)
    {
      page := p;
    }

    /** Enter in the jump box. */
    method JumpTo(input: JumpInput)
      requires Valid()
      modifies this
      ensures Valid()
      ensures page == JumpTarget(input, |devices|, pageSize)
      ensures devices == old(devices) && filters == old(filters) && pageSize == old(pageSize)
      ensures selectedRowKeys == old(selectedRowKeys) && selectedDevice == old(selectedDevice)
      ensures adjustOpen == old(adjustOpen) && notice == old(notice)
    {
      page := JumpTarget(input, |devices|, pageSize);
    }

    /** The row selection of the table. */
    method Select(keys: seq<int>)
      requires Valid()
      modifies this
      ensures Valid()
      ensures selectedRowKeys == keys
      ensures devices == old(devices) && filters == old(filters) && page == old(page) && pageSize == old(pageSize)
      ensures selectedDevice == old(selectedDevice) && adjustOpen == old(adjustOpen) && notice == old(notice)
    {
      selectedRowKeys := keys;
    }

    /** `window.updateDeviceStatus`: the update merged into the loaded devices with its id. */
    method ApplyStatusUpdate(id: int, updated: Device)
      requires Valid()
      modifies this
      ensures Valid()
      ensures devices == MergeById(old(devices), id, updated)
      ensures filters == old(filters) && page == old(page) && pageSize == old(pageSize)
      ensures selectedRowKeys == old(selectedRowKeys) && selectedDevice == old(selectedDevice)
      ensures adjustOpen == old(adjustOpen) && notice == old(notice)
    {
      devices := MergeById(devices, id, updated);
    }

    /** The adjust button: with exactly one row selected and a loaded device
        of that id, the first such device is chosen and the dialog opens;
        otherwise a message is shown and the dialog is left as it was. */
    method OpenAdjust()
      requires Valid()
      modifies this
      ensures Valid()
      ensures adjustOpen == (old(adjustOpen) || (|selectedRowKeys| == 1 && RowWithKey(devices, selectedRowKeys[0]).Some?))
      ensures |selectedRowKeys| == 1 && RowWithKey(devices, selectedRowKeys[0]).Some? ==>
              selectedDevice == RowWithKey(devices, selectedRowKeys[0]) && notice == old(notice)
      ensures |selectedRowKeys| != 1 ==> selectedDevice == old(selectedDevice) && notice == Some(SELECT_ONE)
      ensures |selectedRowKeys| == 1 && RowWithKey(devices, selectedRowKeys[0]).None? ==>
              selectedDevice == old(selectedDevice) && notice == Some(NO_SUCH_DEVICE)
      ensures devices == old(devices) && filters == old(filters) && page == old(page) && pageSize == old(pageSize)
      ensures selectedRowKeys == old(selectedRowKeys)
    {
      if |selectedRowKeys| == 1 {
        var found := RowWithKey(devices, selectedRowKeys[0]);
        if found.Some? {
          selectedDevice := found;
          adjustOpen := true;
        } else {
          notice := Some(NO_SUCH_DEVICE);
        }
      } else {
        notice := Some(SELECT_ONE);
      }
    }

    /** `fetchDevices`: the store's devices for the filled-in inputs, then the
        change-type filter. */
    method FetchDevices(store: LocalDataService)
      requires Valid()
      modifies this
      ensures Valid()
      ensures filters.changeType == "" || filters.changeType == MANUAL ==>
              devices == store.GetDevices(ServiceFilter(filters))
      ensures filters.changeType != "" && filters.changeType != MANUAL ==> devices == []
      ensures SortedBy(devices, BySequence)
      ensures forall i :: 0 <= i < |devices| ==> devices[i] in store.devices && Matches(ServiceFilter(filters), devices[i])
      ensures filters == old(filters) && page == old(page) && pageSize == old(pageSize)
      ensures selectedRowKeys == old(selectedRowKeys) && selectedDevice == old(selectedDevice)
      ensures adjustOpen == old(adjustOpen) && notice == old(notice)
    {
      var params := FilterParams(filters);
      var data := store.GetDevices(params);
      var list := PostFilter(data, filters.changeType);
      devices := list;
    }
  }
}
