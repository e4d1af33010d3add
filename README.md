# Pressure-plate management: a verified model of its core logic

This project models, in Dafny, the logic of a browser app that manages the
pressure plates (压板) of a substation. The data lives in a local store.
The model covers six parts:

- **The device and change-log store** (`LocalDataService`, module `LocalData`).
  - A class whose two fields, `devices` and `logs`, are updated in place.
  - Device operations: the filtered device query, lookup, update by
    object spread, create with the next id, delete, and import that makes
    every plate hard.
  - Log operations: the log upsert that keeps one log per device, the
    "latest log per device" query, and hiding or restoring by id set or by
    device and time range. Their rules are stated as functions in module
    `ChangeLog`.
- **The seed data** (module `SeedData`). The plate-name builder with its
  lengthening loop takes its random picks as inputs. The generator lays out
  121 plates with fixed rules. The migration normalises stored names and
  plate types. Module `SeedStats` counts screen A's colours and statuses, as
  the generator's log does.
- **The position diagram** (module `PositionGrid`). It groups plates by
  protection screen into the three layer buckets 上/中/下. It places them in
  a fixed `maxRows × maxCols` array: a bounds check, then the last write wins.
- **The change-log views** (modules `LogView` and `CsvExport`). These cover
  the table filter, the page slice and the default range of the restore
  dialog. They cover the guards before hiding and restoring, and the CSV
  export. Each field of the export is quoted as section 2, item 7 of
  RFC 4180 has it, and a reader for such fields proves that the export
  reads back losslessly.
- **The plate table page** (module `PlateManage`, class `PlateManagePage`).
  - The mapping from filter inputs to the store's filter.
  - The change-type post-filter.
  - The page slice, the jump-to-page clamp and the page resets.
  - The merge of a status update into the loaded list.
  - The single-selection rule of the adjust dialog.
- **The terminology configuration** (module `Terminology`). Its reads fall
  back to the default order. Its writes drop falsy entries, and it is kept
  in one storage slot.

Shared helpers live in `Wrappers` (`Option`, `Result`) and `Seqs` (filter,
stable insertion sort, JavaScript `slice`, page slice). `Strings` holds
`includes`, `indexOf`, `replace` of the first match, lower-casing and number
formatting. `Records` holds the `Device` and `UpdateLogItem` records and
object spread.

The spreads `{ ...d, ...p }` become `Records.Merge`, where a present field
of the patch wins. Timestamps are integers. The day boundaries of dayjs
(`startOf('day')`, `endOf('day')`) and its date formatting are function
parameters.

The position grid, `createGrid` in
src/components/PressurePlatePositionModal.tsx, fills a fixed 4 × 3 array by
default, drops plates whose coordinates fall outside it and normalises no
coordinate.

## Model

| member | source | states |
|---|---|---|
| Records.MergeEmpty | src/lib/localData.ts:384-388 | spreading a patch with no field present leaves the device as it was |
| Records.MergeIdempotent | src/lib/localData.ts:384-388 | spreading the same patch twice gives the same device as spreading it once |
| Records.MergeWhole | src/pages/PlateManage.tsx:100 | spreading a whole device over another gives the new device, except that an optional field absent in it keeps the old value |
| Records.Overwrite | src/lib/localData.ts:404-411 | the overwritten log keeps its id, is visible, has sequence 0 and takes the device and time of the input |
| Records.Fresh | src/lib/localData.ts:417 | a new log has the given id and sequence 0; it is visible unless the input says otherwise; it takes the input's device and time |
| SeedData.PatternName | src/lib/localData.ts:94-99 | each of the four name patterns contains 压板 |
| SeedData.InitialName | src/lib/localData.ts:100-103 | the picked name contains 压板, so the lengthening loop has something to replace |
| SeedData.Grow | src/lib/localData.ts:104-107 | the lengthening loop ends with at least 10 characters, and leaves a name of 10 or more untouched |
| SeedData.Shorten | src/lib/localData.ts:108-111 | a name of at most 20 characters is kept; a longer one ends with 15 to 20 characters |
| SeedData.PlateNameOf | src/lib/localData.ts:79-113 | for every choice of picks the built name has 10 to 20 characters |
| SeedData.BuildPlateName | src/lib/localData.ts:79-113 | the builder with its `while` loop terminates for every choice of picks and returns the name `PlateNameOf` gives, of 10 to 20 characters |
| SeedData.NormalizeName | src/lib/localData.ts:148-151 | a name of 10 to 20 characters is kept; any other is replaced by a built one; the result always has 10 to 20 |
| SeedData.Migrate | src/lib/localData.ts:146-157 | every migrated device is hard and has a 10-to-20-character name, a valid name is kept, and nothing else of the device changes |
| SeedData.MigrateIdempotent | src/lib/localData.ts:146-157 | migrating migrated devices changes nothing, whatever the new picks |
| SeedData.SeedScreenA | src/lib/localData.ts:194-211 | screen-A plate k is red iff k < 30, yellow iff 30 ≤ k < 58, gray iff 58 ≤ k < 73, black iff k ≥ 73; it is 退出 iff k mod 4 = 3 and 投入 otherwise; it is in layer top, middle or bottom iff k < 27, 27 ≤ k < 54 or k ≥ 54 |
| SeedData.SeedScreensBC | src/lib/localData.ts:260-272 | a screen-B/C plate at row x is 投入 exactly when x is odd; its colour is `colors[(sequence + x + y) mod 3]`; its layer is top for rows 1-2, middle for 3-4 and bottom for 5 |
| SeedStats.SeedStatsA | src/lib/localData.ts:198-251 | the plates that the statistics filter to screen A are the first 81 of the list; of these, 30 are red, 28 yellow, 15 gray and 8 black, and 61 are 投入 and 20 退出, as the source's comments promise |
| SeedData.GenerateDevices | src/lib/localData.ts:181-301 | the nested loops produce exactly 121 devices, device k being the k-th seed plate |
| SeedData.SeedLayout | src/lib/localData.ts:181-301 | ids and sequence numbers run 1..121 in order; screen A covers [1..9]×[1..9] row by row, then 20 plates each for B and C over [1..5]×[1..4]; all hard |
| SeedData.SeedCellsDistinct | src/lib/localData.ts:190-299 | no two seed plates of one screen share a cell |
| ChangeLog.NextLogId | src/lib/localData.ts:416 | the new log id is at least 1, above every id in use, and one more than the largest id when there are logs |
| ChangeLog.Upsert | src/lib/localData.ts:399-421 | the log of the input's device, if any, is overwritten in place; otherwise a fresh log with the next id is appended; the returned log is the stored one |
| ChangeLog.UpsertOnePerDevice | src/lib/localData.ts:401-418 | the upsert keeps at most one log per device and the returned log is in the list |
| ChangeLog.UpsertUniqueIds | src/lib/localData.ts:401-418 | the upsert keeps log ids unique |
| ChangeLog.LatestOf | src/lib/localData.ts:431-433 | the `reduce` returns a log of the list whose time no other log of the list exceeds |
| ChangeLog.LatestOfEarliest | src/lib/localData.ts:431-433 | on a tie the `reduce` keeps the earliest log with the latest time |
| ChangeLog.LatestPerDeviceKeys | src/lib/localData.ts:438-448 | the Map loop yields one entry per device, each a stored log, and every device with a log has an entry |
| ChangeLog.LatestPerDeviceEntries | src/lib/localData.ts:438-448 | each entry of the Map loop is its device's latest log, the earliest on a tie |
| ChangeLog.QueryOneDevice | src/lib/localData.ts:427-435 | with a device selected the query gives at most one log, that device's entry of the per-device latest |
| ChangeLog.QueryDeviceWithoutLogs | src/lib/localData.ts:429-435 | a device without logs gets the empty list |
| ChangeLog.QueryDeviceWithLogs | src/lib/localData.ts:429-435 | a device with logs gets exactly its latest log |
| ChangeLog.UpdateLogsResult | src/lib/localData.ts:423-456 | the query result is newest first, numbered 1..n, has one log per device, at most one with a device selected, and is built from the per-device latest logs |
| ChangeLog.SortRenumberSpec | src/lib/localData.ts:451-454 | sorting newest first and renumbering keeps the entries and one per device |
| ChangeLog.HiddenByIdsSpec | src/lib/localData.ts:458-468 | exactly the logs whose id is in the set take the wanted state; every other log and the length are unchanged; an empty set changes nothing and counts 0 |
| ChangeLog.HiddenByRangeSpec | src/lib/localData.ts:470-484 | a log changes iff it is not yet in the wanted state, is of the device when one is given and lies within the inclusive optional bounds, and then only its hidden flag changes |
| ChangeLog.HiddenByRangeIdempotent | src/lib/localData.ts:470-484 | running the same range operation again changes nothing and counts 0 |
| LocalData.FilterIfStep | src/lib/localData.ts:328-351 | a filter step under `if (given)` keeps the devices that pass when given and all of them otherwise |
| LocalData.StageSpec | src/lib/localData.ts:325-352 | after the first n filter steps the devices left are those passing the first n tests |
| LocalData.DevicePipelineSpec | src/lib/localData.ts:325-352 | the six successive filters keep exactly the devices that match every given filter |
| LocalData.LookupDevice | src/lib/localData.ts:361-369 | a device is found iff one has the id, and then it has the id and is stored; otherwise the error is 设备未找到 |
| LocalData.NextDeviceId | src/lib/localData.ts:490 | the new device id is at least 1, above every id in use, and one more than the largest one when there are devices |
| LocalData.ForceHardIdempotent | src/lib/localData.ts:570-573 | every imported plate is hard, and forcing twice is forcing once |
| LocalData.CreateKeepsUniqueIds | src/lib/localData.ts:490-500 | appending the created device keeps device ids unique |
| LocalData.RemoveAtSpec | src/lib/localData.ts:521 | `splice(i, 1)` shortens the list by one, keeps the rest in order and removes exactly one copy of device i |
| LocalData.LocalDataService.constructor | src/lib/localData.ts:116-178 | unless the stored version is current and exactly 121 stored devices parse, the seed is generated; otherwise the stored devices are migrated; logs that are not an array become empty |
| LocalData.LocalDataService.GetDevices | src/lib/localData.ts:315-358 | the result is sorted by sequence, is a permutation of the stored devices that pass every given filter, and holds each such device; the store is only read |
| LocalData.LocalDataService.UpdateDevice | src/lib/localData.ts:372-396 | an unknown id gives 设备未找到 and changes nothing; otherwise only the first device with the id is replaced by the patch spread over it with a new `updated_at`, and that record is returned |
| LocalData.LocalDataService.CreateDevice | src/lib/localData.ts:487-507 | appends the input as a hard plate with the next id and both timestamps, returns it, and keeps ids unique |
| LocalData.LocalDataService.DeleteDevice | src/lib/localData.ts:510-528 | an unknown id gives 设备未找到 and changes nothing; otherwise exactly the first device with the id is removed and returned, the others keep their order |
| LocalData.LocalDataService.ImportData | src/lib/localData.ts:565-591 | an array replaces the devices, all hard; a non-array gives 数据格式不正确 and a parse failure 数据解析失败, both changing nothing |
| LocalData.LocalDataService.ResetData | src/lib/localData.ts:531-545 | the devices become the 121 seed plates and the logs are cleared |
| LocalData.LocalDataService.ForceUpdateData | src/lib/localData.ts:548-557 | the devices become the 121 seed plates and the logs are kept |
| LocalData.LocalDataService.AddUpdateLog | src/lib/localData.ts:399-421 | the stored logs and the returned log are the upsert's, keeping one log per device and unique ids |
| LocalData.LocalDataService.GetUpdateLogs | src/lib/localData.ts:423-456 | the method with its Map loop, `reduce`, sort and renumbering returns exactly the specified query result without changing the store |
| LocalData.LocalDataService.SetLogsHiddenByIds | src/lib/localData.ts:458-468 | the logs with a listed id take the state, and the count is how many stored logs have a listed id (an id without a log, or listed twice, adds nothing) |
| LocalData.LocalDataService.SetLogsHiddenByRange | src/lib/localData.ts:470-484 | the selected logs take the state, and the count is how many changed |
| LocalData.LocalDataService.HideWhere | src/lib/localData.ts:462-466 | the store's logs are replaced by the marked ones and the count is returned; devices are unchanged |
| LocalData.MarkHidden | src/lib/localData.ts:461-465 | the counting `map` loop returns the marked logs and the number selected |
| LocalData.CollectLatest | src/lib/localData.ts:438-448 | filling the Map and reading its values in insertion order gives the per-device latest logs |
| PositionGrid.GroupDevicesByProtectionScreen | src/components/PressurePlatePositionModal.tsx:55-92 | every screen in the input gets an entry and no other; each bucket holds, in input order, the devices of that screen whose key names it |
| PositionGrid.GroupDevice | src/components/PressurePlatePositionModal.tsx:58-89 | one `forEach` step creates the screen's three empty buckets when it is new and pushes the device into its bucket when the key names one |
| PositionGrid.BucketsPartitionScreen | src/components/PressurePlatePositionModal.tsx:82-88 | the three buckets of a screen together hold its placed devices; a device with another position is in none |
| PositionGrid.GroupedTotal | src/components/PressurePlatePositionModal.tsx:58-89 | the buckets of all screens hold as many devices as the input has with a recognised position |
| PositionGrid.CellAt | src/components/PressurePlatePositionModal.tsx:104-111 | a cell is empty iff no device lands on it, and otherwise holds a device that lands there |
| PositionGrid.CreateGrid | src/components/PressurePlatePositionModal.tsx:95-114 | the grid is new, `maxRows × maxCols` (4 × 3 by default), and each cell is the one `CellAt` gives for the input: nothing when no device lands on it, otherwise a device landing there, the last one by `LastWriteWins` and `OtherCellsKept` |
| PositionGrid.LastWriteWins | src/components/PressurePlatePositionModal.tsx:108-110 | a later device on a cell replaces an earlier one |
| PositionGrid.OtherCellsKept | src/components/PressurePlatePositionModal.tsx:104-111 | a device landing elsewhere, or out of range, leaves a cell as it was |
| LogView.DeviceIdFromQuery | src/pages/UpdateLogs.tsx:34 | a device is shown iff the query gives a number other than 0; an absent parameter or NaN means all logs |
| LogView.FetchBaseSpec | src/pages/UpdateLogs.tsx:55-77 | without a device all latest logs are loaded; an unknown device loads nothing; a known one loads at most one log, of that device |
| LogView.Filtered | src/components/UpdateLogsModal.tsx:107-122 | the filtered list is an order-preserving subsequence of the logs. A log is in it iff it passes the test, so no hidden log is in it. A kept log occurs as often as in the logs, and a dropped one not at all |
| LogView.KeepIff | src/pages/UpdateLogs.tsx:84-100 | a log is kept iff it is visible, matches type and status exactly, contains the source text, and lies in [start of the first day, end of the last], each test applying only when set |
| LogView.FilteredUnset | src/components/UpdateLogsModal.tsx:107-122 | with no filter set only the hidden logs are removed |
| LogView.Paged | src/pages/UpdateLogs.tsx:102-105 | the page is exactly the filtered logs from `(page-1)*pageSize` up to `page*pageSize`, cut at the end of the list; it is empty past the end, and never holds more than `pageSize` logs |
| LogView.LatestHidden | src/components/UpdateLogsModal.tsx:188-191 | the `reduce` gives nothing for no logs, otherwise a time of one of them that none exceeds |
| LogView.RestoreDefault | src/components/UpdateLogsModal.tsx:182-195 | with no hidden log no dialog opens; otherwise the range is [d, d], d the start of the day of the latest hidden log |
| LogView.RestoreDefaultRestores | src/pages/UpdateLogs.tsx:166-190 | restoring the all-devices view over the default range restores at least one log |
| LogView.DeviceArgument | src/components/UpdateLogsModal.tsx:205 | the service argument carries the device exactly when one is selected (a present id other than 0), and is null otherwise |
| LogView.HandleHideSelected | src/components/UpdateLogsModal.tsx:169-179 | an empty selection calls nothing and changes no log; otherwise the selected ids are hidden and the reloaded list is the query result |
| LogView.HandleConfirmRestore | src/pages/UpdateLogs.tsx:183-199 | with no range or both ends empty nothing changes; otherwise the hidden logs of the device in [start of the first day, end of the last] are shown again and their count returned |
| CsvExport.Escape | src/components/UpdateLogsModal.tsx:156 | doubling quotes never shortens a value |
| CsvExport.LogRow | src/components/UpdateLogsModal.tsx:144-155 | each exported row has one value per header title |
| CsvExport.LogRows | src/pages/UpdateLogs.tsx:128-139 | one row per filtered log, in order |
| CsvExport.QuoteRecords | src/pages/UpdateLogs.tsx:140 | every record is quoted field by field, keeping the number of records |
| CsvExport.ParseEscaped | src/components/UpdateLogsModal.tsx:156 | reading the inside of a quoted field undoes the doubling of quotes |
| CsvExport.FieldRoundTrip | src/components/UpdateLogsModal.tsx:156 | every quoted field reads back as the value written |
| CsvExport.RecordRoundTrip | src/components/UpdateLogsModal.tsx:156 | every comma-joined quoted record reads back as its fields |
| CsvExport.DocumentRoundTrip | src/pages/UpdateLogs.tsx:140 | records joined by line feeds read back as the records |
| CsvExport.PageCsvRoundTrip | src/pages/UpdateLogs.tsx:126-140 | the page's export reads back as the header and then one ten-value record per filtered log |
| CsvExport.ModalCsvRoundTrip | src/components/UpdateLogsModal.tsx:142-156 | the dialog's export is the plain header line, then, when there are logs, a line feed and quoted records that read back as the rows |
| Seqs.JsSlice | src/components/UpdateLogsModal.tsx:124-127 | `slice` gives at most `end - start` items, the contiguous run from `start` up to `end` or the list's end when `start` is in range, and nothing when `start` is at or past the end or not before `end` |
| Seqs.PageOf | src/pages/PlateManage.tsx:114 | the page is exactly the items from `(page-1)*pageSize` up to `page*pageSize`, cut at the end of the list, so a last page holds what remains; it is empty past the end, and is full when enough items follow |
| Seqs.PagesConsecutive | src/pages/PlateManage.tsx:114 | two consecutive pages are one contiguous run of the list |
| PlateManage.ServiceFilter | src/pages/PlateManage.tsx:48-54 | the store filter takes plateName as the plate name, status as the plate status and changeSource as the last changer |
| PlateManage.FilterParams | src/pages/PlateManage.tsx:48-54 | the conditional assignments give the store filter with each filled-in input under its store name |
| PlateManage.ChangeTypeNotPassed | src/pages/PlateManage.tsx:48-54 | two input sets that differ only in the change type ask the store for the same devices |
| PlateManage.BlankInputsMatchAll | src/pages/PlateManage.tsx:116-117 | with every input blank each device passes the store's filter |
| PlateManage.PostFilter | src/pages/PlateManage.tsx:74-82 | a blank change type or 手动变更 keeps the list; any other value empties it |
| PlateManage.MergeById | src/pages/PlateManage.tsx:99-101 | the length is kept; a device with another id is unchanged; one with the id becomes the update, keeping its own value for each optional field the update lacks |
| PlateManage.MergeByIdIdempotent | src/pages/PlateManage.tsx:99-101 | applying the same update twice is applying it once |
| PlateManage.MergeByIdKeepsIds | src/pages/PlateManage.tsx:99-101 | an update carrying the same id leaves every id in place |
| PlateManage.LastPage | src/pages/PlateManage.tsx:377 | the last page is at least 1, its pages hold all rows, and page `last - 1` ends before the last row when last > 1 |
| PlateManage.JumpTarget | src/pages/PlateManage.tsx:375-378 | the jump lands in [1, last page]; an in-range number is kept, a larger one goes to the last page, and blank, NaN or numbers below 1 give 1 |
| PlateManage.JumpShowsRows | src/pages/PlateManage.tsx:375-378 | when there are rows the page jumped to shows at least one |
| PlateManage.PlateManagePage.constructor | src/pages/PlateManage.tsx:22-41 | the page starts with no devices, blank inputs, page 1 of size 10, nothing selected and the dialog closed |
| PlateManage.PlateManagePage.PagedData | src/pages/PlateManage.tsx:114 | the shown rows are exactly the devices from `(page-1)*pageSize` up to `page*pageSize`, cut at the end of the list; there are none past the end, and the page is full when enough devices follow |
| PlateManage.PlateManagePage.Reset | src/pages/PlateManage.tsx:116-119 | every input blank and page 1, the rest unchanged |
| PlateManage.PlateManagePage.ChangePageSize | src/pages/PlateManage.tsx:359 | the new size and page 1, the rest unchanged |
| PlateManage.PlateManagePage.SetPage | src/pages/PlateManage.tsx:365 | the pager's page, the rest unchanged |
| PlateManage.PlateManagePage.JumpTo | src/pages/PlateManage.tsx:374-380 | the page becomes the clamped jump target, the rest unchanged |
| PlateManage.PlateManagePage.Select | src/pages/PlateManage.tsx:337 | the selected row keys are replaced, the rest unchanged |
| PlateManage.PlateManagePage.ApplyStatusUpdate | src/pages/PlateManage.tsx:97-102 | the loaded devices become the merge of the update by id |
| PlateManage.RowWithKey | src/pages/PlateManage.tsx:303 | the lookup finds the first loaded device with the key, and finds nothing exactly when no device has it |
| PlateManage.PlateManagePage.OpenAdjust | src/pages/PlateManage.tsx:302-320 | the dialog opens, with the first device of the key, iff exactly one key is selected and a loaded device has it; otherwise the matching message is shown and the dialog stays as it was |
| PlateManage.PlateManagePage.FetchDevices | src/pages/PlateManage.tsx:43-91 | the loaded devices are the store's answer to the mapped filter after the change-type post-filter, sorted by sequence and each matching |
| Terminology.ReadList | src/lib/terminologyConfig.ts:18-19 | a list is taken iff it is a non-empty array; otherwise it is the default order; never empty |
| Terminology.Read | src/lib/terminologyConfig.ts:12-24 | nothing stored or unparseable text gives the default order for both lists; a parsed value is read list by list |
| Terminology.Normalize | src/lib/terminologyConfig.ts:28-29 | a missing list becomes []. Otherwise the falsy entries are dropped and the others kept in order, each truthy entry as many times as it occurs |
| Seqs.FilterMultiplicity | src/lib/terminologyConfig.ts:28-29 | `filter` keeps every copy of an element that passes and none of one that fails |
| Terminology.NormalizeTruthy | src/lib/terminologyConfig.ts:28-29 | a list without falsy entries is stored as it is |
| Terminology.ReadAfterSet | src/lib/terminologyConfig.ts:12-32 | reading after a write gives, per list, the written list without falsy entries, or the default when nothing is left |
| Terminology.SetWhatWasRead | src/lib/terminologyConfig.ts:12-32 | writing back what was read from a clean stored value reads the same again |
| Terminology.TerminologyStore.Get | src/lib/terminologyConfig.ts:12-24 | both lists read are non-empty; an empty or unparseable slot gives the defaults |
| Terminology.TerminologyStore.Set | src/lib/terminologyConfig.ts:26-32 | the slot holds the normalised lists, and a read then gives each list or the default |

## Left out

- Persistence: the localStorage reads and writes, JSON parsing and stringifying, and the data-version key. Stored values arrive parsed, as `LocalData.Stored`: missing, unparseable, not an array, or items.
- A stored or imported device record that lacks fields of `Device` is not modelled: every record is a full `Device`.
- The `setTimeout` delay, `async`/`await` and console logging. Every service call is one sequential method, and each one's interleaving-free effect is modelled.
- The `localData.from(...)` query adapter and the `window` debug hooks of src/lib/localData.ts. They forward to the service.
- `exportData` (`JSON.stringify` of the devices). Only serialisation, which is not modelled.
- Clocks and randomness. `new Date().toISOString()` is a `now` parameter. `Math.random` in `buildPlateName` is the `SeedData.Picks` parameter.
- Timestamps. `change_time` is an integer, and the `localeCompare` of ISO strings is integer order.
  - Empty or invalid timestamps (`|| ''`, NaN from `new Date`) are not modelled.
  - Day boundaries and date formatting come in as functions.
- Strings.Lower: lower-cases ASCII letters only; JavaScript's full Unicode `toLowerCase` is not modelled.
- Strings and entries are sequences of characters; UTF-16 code units and surrogate pairs are not distinguished.
- Objects as dictionaries. The screen dictionary of the position diagram is a `map` from screen to a `PositionGrid.Buckets` record with the three buckets. Two quirks are not modelled:
  - the order of `Object.entries`;
  - keys that collide with names on the object prototype.
- PositionGrid.GroupDevice: a position named after an object prototype member, such as `constructor` or `toString`, passes the source's `if (screenGroups[s][positionKey])` test (PressurePlatePositionModal.tsx:85-86). The `push` that follows then throws. The model drops such a device like any other unknown position, so that exception is not modelled.
- PositionGrid.CreateGrid: needs integer coordinates. Fractional ones, which make the source throw, are not modelled.
- A coordinate missing from a device is not modelled: every `Device` has both.
- PlateManage.PlateManagePage.JumpTo: takes whole page numbers only. A fractional number typed into the jump box, which the source would set as the page, is not modelled.
- PlateManage.PlateManagePage.FetchDevices: the error branch of `fetchDevices` is not modelled, because `getDevices` never returns an error. The `useEffect` re-fetch after a filter change is a separate call of this method.
- The loading flags, message toasts other than the adjust button's, modal sizing and resize listeners, React rendering and the CSV download plumbing. These are UI and DOM.
- The pages' `baseDevice` state: only the loaded logs are modelled.
- The pages and components that only forward to the service: device detail, device management, data import, the adjust and terminology dialogs, layout and routing.
- `Device` is the record of src/lib/localData.ts. The Supabase client of src/lib/supabase.ts and its `Device` type are not part of this model. The position diagram loads its devices through that client, so the diagram's functions take the device list as a parameter.
