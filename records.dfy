/** The records the store keeps: `Device` and `UpdateLogItem` of
    src/lib/localData.ts, the `Partial<Device>` patch that `updateDevice`
    spreads over a device, and the log input of `addUpdateLog`.

    Free-text fields, the layer (`pressure_plate_position`) and the plate type
    are strings, since imported data need not keep to the declared unions.
    Optional (`?:`) fields are Options; ISO timestamps that are only stored
    are strings, while a log's `change_time`, which is compared, is an
    integer instant. */
module Records {
  import opened Wrappers

  const HARD: string := "hard"
  const SOFT: string := "soft"

  datatype Device = Device(
    id: int,
    sequence: int,
    powerStation: string,
    protectionScreen: string,
    deviceIssue: string,
    pressurePlateName: string,
    plateType: string,
    pressurePlateBox: string,
    pressurePlateTime: string,
    pressurePlateGeneralName: string,
    pressurePlateTypeColor: string,
    pressurePlatePosition: string,
    positionX: int,
    positionY: int,
    pressurePlateStatus: Option<string>,
    lastChangedBy: Option<string>,
    lastChangedAt: Option<string>,
    changeRemarks: Option<string>,
    createdAt: Option<string>,
    updatedAt: Option<string>)

  /** `Partial<Device>`: a field that is None is absent from the object. */
  datatype DevicePatch = DevicePatch(
    id: Option<int>,
    sequence: Option<int>,
    powerStation: Option<string>,
    protectionScreen: Option<string>,
    deviceIssue: Option<string>,
    pressurePlateName: Option<string>,
    plateType: Option<string>,
    pressurePlateBox: Option<string>,
    pressurePlateTime: Option<string>,
    pressurePlateGeneralName: Option<string>,
    pressurePlateTypeColor: Option<string>,
    pressurePlatePosition: Option<string>,
    positionX: Option<int>,
    positionY: Option<int>,
    pressurePlateStatus: Option<string>,
    lastChangedBy: Option<string>,
    lastChangedAt: Option<string>,
    changeRemarks: Option<string>,
    createdAt: Option<string>,
    updatedAt: Option<string>)

  const EMPTY_PATCH: DevicePatch := DevicePatch(None, None, None, None, None, None, None, None, None, None,
                                                None, None, None, None, None, None, None, None, None, None)

  /** A present optional field of the patch wins; an absent one keeps the device's. */
  function Over<T>(patch: Option<T>, current: Option<T>): Option<T>
  {
    if patch.Some? then patch else current
  }

  /** `{ ...d, ...p }`: every field present in the patch wins. */
  function Merge(d: Device, p: DevicePatch): Device
  {
    Device(
      p.id.GetOr(d.id),
      p.sequence.GetOr(d.sequence),
      p.powerStation.GetOr(d.powerStation),
      p.protectionScreen.GetOr(d.protectionScreen),
      p.deviceIssue.GetOr(d.deviceIssue),
      p.pressurePlateName.GetOr(d.pressurePlateName),
      p.plateType.GetOr(d.plateType),
      p.pressurePlateBox.GetOr(d.pressurePlateBox),
      p.pressurePlateTime.GetOr(d.pressurePlateTime),
      p.pressurePlateGeneralName.GetOr(d.pressurePlateGeneralName),
      p.pressurePlateTypeColor.GetOr(d.pressurePlateTypeColor),
      p.pressurePlatePosition.GetOr(d.pressurePlatePosition),
      p.positionX.GetOr(d.positionX),
      p.positionY.GetOr(d.positionY),
      Over(p.pressurePlateStatus, d.pressurePlateStatus),
      Over(p.lastChangedBy, d.lastChangedBy),
      Over(p.lastChangedAt, d.lastChangedAt),
      Over(p.changeRemarks, d.changeRemarks),
      Over(p.createdAt, d.createdAt),
      Over(p.updatedAt, d.updatedAt))
  }

  /** A whole `Device` seen as the object spread over another one: its
      required fields are all present, its optional ones only when set. */
  function AsPatch(d: Device): DevicePatch
  {
    DevicePatch(
      Some(d.id), Some(d.sequence), Some(d.powerStation), Some(d.protectionScreen), Some(d.deviceIssue),
      Some(d.pressurePlateName), Some(d.plateType), Some(d.pressurePlateBox), Some(d.pressurePlateTime),
      Some(d.pressurePlateGeneralName), Some(d.pressurePlateTypeColor), Some(d.pressurePlatePosition),
      Some(d.positionX), Some(d.positionY),
      d.pressurePlateStatus, d.lastChangedBy, d.lastChangedAt, d.changeRemarks, d.createdAt, d.updatedAt)
  }

  /** Spreading the empty patch changes nothing. */
  lemma MergeEmpty(d: Device)
    ensures Merge(d, EMPTY_PATCH) == d
  {
  }

  /** Spreading the same patch twice is spreading it once. */
  lemma MergeIdempotent(d: Device, p: DevicePatch)
    ensures Merge(Merge(d, p), p) == Merge(d, p)
  {
  }

  /** Spreading a whole device: its own fields win, and only the optional
      fields it leaves unset come from the old device. */
  lemma MergeWhole(d: Device, u: Device)
    ensures Merge(d, AsPatch(u)) == u.(pressurePlateStatus := Over(u.pressurePlateStatus, d.pressurePlateStatus),
                                       lastChangedBy := Over(u.lastChangedBy, d.lastChangedBy),
                                       lastChangedAt := Over(u.lastChangedAt, d.lastChangedAt),
                                       changeRemarks := Over(u.changeRemarks, d.changeRemarks),
                                       createdAt := Over(u.createdAt, d.createdAt),
                                       updatedAt := Over(u.updatedAt, d.updatedAt))
  {
  }

  /** `UpdateLogItem`; an absent `hidden` reads as false everywhere it is used. */
  datatype LogItem = LogItem(
    id: int,
    deviceId: int,
    sequence: int,
    powerStation: string,
    protectionScreen: string,
    deviceIssue: string,
    pressurePlateName: string,
    plateType: string,
    changeType: string,
    changeSource: string,
    changeTime: int,
    pressurePlateStatus: string,
    hidden: bool)

  /** `Omit<UpdateLogItem, 'id' | 'sequence'>`: what `addUpdateLog` receives. */
  datatype LogInput = LogInput(
    deviceId: int,
    powerStation: string,
    protectionScreen: string,
    deviceIssue: string,
    pressurePlateName: string,
    plateType: string,
    changeType: string,
    changeSource: string,
    changeTime: int,
    pressurePlateStatus: string,
    hidden: Option<bool>)

  /** `{ ...prev, ...input, hidden: false, sequence: 0 }`: the update of an existing log. */
  function Overwrite(prev: LogItem, input: LogInput): (r: LogItem)
    ensures r.id == prev.id && !r.hidden && r.sequence == 0
    ensures r.deviceId == input.deviceId && r.changeTime == input.changeTime
  {
    LogItem(prev.id, input.deviceId, 0, input.powerStation, input.protectionScreen, input.deviceIssue,
            input.pressurePlateName, input.plateType, input.changeType, input.changeSource,
            input.changeTime, input.pressurePlateStatus, false)
  }

  /** `{ id, hidden: false, sequence: 0, ...input }`: the input is spread last,
      so a `hidden` it carries wins over the default false. */
  function Fresh(id: int, input: LogInput): (r: LogItem)
    ensures r.id == id && r.sequence == 0 && r.hidden == input.hidden.GetOr(false)
    ensures r.deviceId == input.deviceId && r.changeTime == input.changeTime
  {
    LogItem(id, input.deviceId, 0, input.powerStation, input.protectionScreen, input.deviceIssue,
            input.pressurePlateName, input.plateType, input.changeType, input.changeSource,
            input.changeTime, input.pressurePlateStatus, input.hidden.GetOr(false))
  }
}
