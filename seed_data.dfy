/** The deterministic seed data of src/lib/localData.ts: the plate-name
    builder, the 121-device generator and the name/type migration applied to
    stored devices. The builder's random picks are inputs: a `Picks` value
    holds the index chosen in each word list and, for the lengthening loop, a
    stream of indices into the extras list. */
module SeedData {
  import opened Wrappers
  import opened Strings
  import opened Records

  const SUBJECTS: seq<string> := [
    "主变压器", "母线", "线路", "发电机", "母联", "备用电源", "厂用变", "站用电",
    "电容器组", "消弧线圈", "PT回路", "CT回路", "低压侧", "高压侧", "母线分段"]
  const FUNCS: seq<string> := [
    "差动保护", "后备保护", "过流保护", "距离保护", "零序保护", "过负荷保护", "母差保护",
    "重合闸", "跳闸回路", "信号回路", "备自投", "备用跳闸"]
  const QUALIFIERS: seq<string> := [
    "投入", "退出", "允许", "禁止", "复归", "试验", "检修", "闭锁", "遥控", "就地", "远方", "投退"]
  const EXTRAS: seq<string> := ["控制", "操作", "运行", "监视", "选择", "定值区"]
  const PLATE: string := "压板"

  const MIN_NAME: nat := 10
  const MAX_NAME: nat := 20

  /** The outcome of each `pick(...)` call of one name: an index per word list,
      the pattern index, and the extras index drawn by the k-th lengthening step. */
  datatype Picks = Picks(subject: nat, func: nat, qualifier: nat, pattern: nat, extra: nat -> nat)

  /** `Math.floor(Math.random() * arr.length)` is always an index of `arr`. */
  ghost predicate ValidPicks(p: Picks)
  {
    && p.subject < |SUBJECTS| && p.func < |FUNCS| && p.qualifier < |QUALIFIERS| && p.pattern < 4
    && forall k: nat :: p.extra(k) < |EXTRAS|
  }

  /** The four name patterns, each ending in 压板. */
  function PatternName(pattern: nat, s: string, f: string, q: string): (r: string)
    requires pattern < 4
    ensures Includes(r, PLATE)
  {
    var prefix :=
      if pattern == 0 then s + f + q
      else if pattern == 1 then s + f + q + "控制"
      else if pattern == 2 then s + f + "回路" + q
      else s + q + f + "操作";
    IncludesMiddle(prefix, PLATE, "");
    assert prefix + PLATE + "" == prefix + PLATE;
    prefix + PLATE
  }

  function InitialName(p: Picks): (r: string)
    requires ValidPicks(p)
    ensures Includes(r, PLATE)
  {
    PatternName(p.pattern, SUBJECTS[p.subject], FUNCS[p.func], QUALIFIERS[p.qualifier])
  }

  /** The `while (name.length < 10)` loop: each step puts the k-th extra in
      front of the first 压板, so the name grows and keeps its 压板. */
  function Grow(name: string, p: Picks, k: nat): (r: string)
    requires ValidPicks(p) && Includes(name, PLATE)
    decreases MIN_NAME - |name|
    ensures MIN_NAME <= |r|
    ensures MIN_NAME <= |name| ==> r == name
  {
    if MIN_NAME <= |name| then name
    else
      var ex := EXTRAS[p.extra(k)];
      assert 2 <= |ex|;
      var next := Replace(name, PLATE, ex + PLATE);
      IncludesSuffix(next, ex, PLATE);
      Grow(next, p, k + 1)
  }

  /** The two `name.length > 20` steps: drop the first 控制, 操作 and 回路, then cut to 20. */
  function Shorten(name: string): (r: string)
    ensures |name| <= MAX_NAME ==> r == name
    ensures MAX_NAME < |name| ==> MAX_NAME - 5 <= |r| <= MAX_NAME
  {
    var n := if MAX_NAME < |name| then Replace(Replace(Replace(name, "控制", ""), "操作", ""), "回路", "") else name;
    if MAX_NAME < |n| then n[..MAX_NAME] else n
  }

  /** The name `buildPlateName` returns for the picks `p`. */
  function PlateNameOf(p: Picks): (r: string)
    requires ValidPicks(p)
    ensures MIN_NAME <= |r| <= MAX_NAME
  {
    Shorten(Grow(InitialName(p), p, 0))
  }

  /** `buildPlateName`, with its loop: for every choice of picks it ends, and
      the name has 10 to 20 characters. */
  method BuildPlateName(p: Picks) returns (name: string)
    requires ValidPicks(p)
    ensures name == PlateNameOf(p)
    ensures MIN_NAME <= |name| <= MAX_NAME
  {
    name := InitialName(p);
    var k: nat := 0;
    while |name| < MIN_NAME
      invariant Includes(name, PLATE)
      invariant Grow(name, p, k) == Grow(InitialName(p), p, 0)
      decreases MIN_NAME - |name|
    {
      var ex := EXTRAS[p.extra(k)];
      name := Replace(name, PLATE, ex + PLATE);
      IncludesSuffix(name, ex, PLATE);
      k := k + 1;
    }
    if |name| > MAX_NAME {
      name := Replace(Replace(Replace(name, "控制", ""), "操作", ""), "回路", "");
    }
    if |name| > MAX_NAME {
      name := name[..MAX_NAME];
    }
  }

  /** `normalizeName` of the migration: a name of 10 to 20 characters is kept,
      any other (the empty one included) is replaced by a built one. */
  function NormalizeName(name: string, p: Picks): (r: string)
    requires ValidPicks(p)
    ensures MIN_NAME <= |r| <= MAX_NAME
    ensures MIN_NAME <= |name| <= MAX_NAME ==> r == name
    ensures !(MIN_NAME <= |name| <= MAX_NAME) ==> r == PlateNameOf(p)
  {
    if name == "" || |name| < MIN_NAME || |name| > MAX_NAME then PlateNameOf(p) else name
  }

  ghost predicate AllValid(picks: seq<Picks>)
  {
    forall i :: 0 <= i < |picks| ==> ValidPicks(picks[i])
  }

  /** The migration of stored devices: each becomes a hard plate with a
      normalised name; nothing else changes. `picks[i]` is used for device i. */
  function Migrate(ds: seq<Device>, picks: seq<Picks>): (r: seq<Device>)
    requires |ds| <= |picks| && AllValid(picks)
    ensures |r| == |ds|
    ensures forall i :: 0 <= i < |r| ==>
      && r[i].plateType == HARD
      && MIN_NAME <= |r[i].pressurePlateName| <= MAX_NAME
      && r[i] == ds[i].(plateType := HARD, pressurePlateName := r[i].pressurePlateName)
    ensures forall i :: 0 <= i < |r| && MIN_NAME <= |ds[i].pressurePlateName| <= MAX_NAME ==>
      r[i].pressurePlateName == ds[i].pressurePlateName
  {
    seq(|ds|, i requires 0 <= i < |ds| =>
      ds[i].(plateType := HARD, pressurePlateName := NormalizeName(ds[i].pressurePlateName, picks[i])))
  }

  /** Migrating twice is migrating once, whatever the second picks are. */
  lemma MigrateIdempotent(ds: seq<Device>, picks: seq<Picks>, again: seq<Picks>)
    requires |ds| <= |picks| && AllValid(picks)
    requires |ds| <= |again| && AllValid(again)
    ensures Migrate(Migrate(ds, picks), again) == Migrate(ds, picks)
  {
    var once := Migrate(ds, picks);
    var twice := Migrate(once, again);
    assert forall i :: 0 <= i < |once| ==> twice[i] == once[i];
  }

  // ---- the generator ----

  const STATION: string := "华能电站"
  const SCREEN_A: string := "保护屏A"
  const SCREENS_BC: seq<string> := ["保护屏B", "保护屏C"]
  const COLORS_BC: seq<string> := ["red", "yellow", "gray"]
  const ON: string := "投入"
  const OFF: string := "退出"
  const SEED_COUNT: nat := 121
  const COUNT_A: nat := 81

  function LayerA(x: int): string
  {
    if x <= 3 then "top" else if x <= 6 then "middle" else "bottom"
  }

  function LayerBC(x: int): string
  {
    if x <= 2 then "top" else if x <= 4 then "middle" else "bottom"
  }

  /** 30 red, 28 yellow, 15 gray, then black, by position within screen A. */
  function ColorA(idx: int): string
  {
    if idx <= 30 then "red" else if idx <= 58 then "yellow" else if idx <= 73 then "gray" else "black"
  }

  /** The 3:1 投入:退出 cycle of screen A. */
  function StatusA(idx: int): string
    requires 1 <= idx
  {
    if (idx - 1) % 4 < 3 then ON else OFF
  }

  function SeedRecord(no: int, screen: string, idx: int, name: string, color: string, layer: string,
                      x: int, y: int, status: string, now: string): Device
  {
    Device(no, no, STATION, screen, "设备间隔" + IntToString(idx), name, HARD, "XXXX", "投入、退出", "通用压板",
           color, layer, x, y, Some(status), Some("系统生成"), Some(now), Some(""), Some(now), Some(now))
  }

  /** The plate at row x, column y of screen A; its index within the screen is also its id. */
  function SeedA(x: int, y: int, name: string, now: string): Device
    requires 1 <= x && 1 <= y
  {
    var idx := (x - 1) * 9 + y;
    SeedRecord(idx, SCREEN_A, idx, name, ColorA(idx), LayerA(x), x, y, StatusA(idx), now)
  }

  /** The plate at row x, column y of screen B (si = 0) or C (si = 1); colour
      and status cycle with the global sequence number `no`. */
  function SeedBC(si: nat, x: int, y: int, name: string, now: string): Device
    requires si < 2
  {
    var idx := (x - 1) * 4 + y;
    var no := COUNT_A + si * 20 + idx;
    SeedRecord(no, SCREENS_BC[si], idx, name, COLORS_BC[(no + x + y) % 3], LayerBC(x), x, y,
               if (no + x + y) % 2 == 0 then ON else OFF, now)
  }

  /** Device k (0-based) of the seed: the first 81 are screen A row by row,
      then 20 of screen B and 20 of screen C, row by row. */
  function SeedDevice(k: nat, name: string, now: string): Device
    requires k < SEED_COUNT
  {
    if k < COUNT_A then SeedA(k / 9 + 1, k % 9 + 1, name, now)
    else
      var j := k - COUNT_A;
      SeedBC(j / 20, (j % 20) / 4 + 1, (j % 20) % 4 + 1, name, now)
  }

  /** Quotient and remainder by 4, 9 and 20 are unique. */
  lemma DivMod4(a: int, q: int, r: int)
    requires 0 <= r < 4 && a == q * 4 + r
    ensures a / 4 == q && a % 4 == r
  {
  }

  lemma DivMod9(a: int, q: int, r: int)
    requires 0 <= r < 9 && a == q * 9 + r
    ensures a / 9 == q && a % 9 == r
  {
  }

  lemma DivMod20(a: int, q: int, r: int)
    requires 0 <= r < 20 && a == q * 20 + r
    ensures a / 20 == q && a % 20 == r
  {
  }

  lemma SeedDeviceA(k: nat, x: int, y: int, name: string, now: string)
    requires 1 <= x <= 9 && 1 <= y <= 9 && k == (x - 1) * 9 + y - 1
    ensures k < COUNT_A
    ensures SeedDevice(k, name, now) == SeedA(x, y, name, now)
  {
    DivMod9(k, x - 1, y - 1);
  }

  lemma SeedDeviceBC(k: nat, si: nat, x: int, y: int, name: string, now: string)
    requires si < 2 && 1 <= x <= 5 && 1 <= y <= 4 && k == COUNT_A + si * 20 + (x - 1) * 4 + y - 1
    ensures COUNT_A <= k < SEED_COUNT
    ensures SeedDevice(k, name, now) == SeedBC(si, x, y, name, now)
  {
    var j := k - COUNT_A;
    CellBC(j, si, x, y);
    BCForm(k, name, now);
    SameBC(j / 20, (j % 20) / 4 + 1, (j % 20) % 4 + 1, si, x, y, name, now);
  }

  lemma BCForm(k: nat, name: string, now: string)
    requires COUNT_A <= k < SEED_COUNT
    ensures (k - COUNT_A) / 20 < 2
    ensures SeedDevice(k, name, now) ==
      SeedBC((k - COUNT_A) / 20, ((k - COUNT_A) % 20) / 4 + 1, ((k - COUNT_A) % 20) % 4 + 1, name, now)
  {
  }

  lemma SameBC(si: nat, x: int, y: int, si': nat, x': int, y': int, name: string, now: string)
    requires si < 2 && si == si' && x == x' && y == y'
    ensures SeedBC(si, x, y, name, now) == SeedBC(si', x', y', name, now)
  {
  }

  /** Position j (0-based) of screens B and C lies on screen si at row x, column y. */
  lemma CellBC(j: int, si: nat, x: int, y: int)
    requires si < 2 && 1 <= x <= 5 && 1 <= y <= 4 && j == si * 20 + (x - 1) * 4 + y - 1
    ensures j / 20 == si && (j % 20) / 4 + 1 == x && (j % 20) % 4 + 1 == y
  {
    var jj := (x - 1) * 4 + y - 1;
    DivMod4(jj, x - 1, y - 1);
    DivMod20(j, si, jj);
  }

  /** One pass of the screen A loop body: the plate at row x, column y. */
  method MakeDeviceA(x: int, y: int, name: string, now: string) returns (device: Device)
    requires 1 <= x <= 9 && 1 <= y <= 9
    ensures device == SeedA(x, y, name, now)
  {
    var idxWithin := (x - 1) * 9 + y;
    var layer := if x <= 3 then "top" else if x <= 6 then "middle" else "bottom";
    var color;
    if idxWithin <= 30 {
      color := "red";
    } else if idxWithin <= 58 {
      color := "yellow";
    } else if idxWithin <= 73 {
      color := "gray";
    } else {
      color := "black";
    }
    var status := if (idxWithin - 1) % 4 < 3 then ON else OFF;
    device := SeedRecord(idxWithin, SCREEN_A, idxWithin, name, color, layer, x, y, status, now);
  }

  /** One pass of the screens B/C loop body, with `globalSeq` = `no`. */
  method MakeDeviceBC(si: nat, x: int, y: int, no: int, name: string, now: string) returns (device: Device)
    requires si < 2 && 1 <= x <= 5 && 1 <= y <= 4
    requires no == COUNT_A + si * 20 + (x - 1) * 4 + y
    ensures device == SeedBC(si, x, y, name, now)
  {
    var s := SCREENS_BC[si];
    var idxWithin := (x - 1) * 4 + y;
    var layer := if x <= 2 then "top" else if x <= 4 then "middle" else "bottom";
    var color := COLORS_BC[(no + x + y) % |COLORS_BC|];
    var status := if (no + x + y) % 2 == 0 then ON else OFF;
    device := SeedRecord(no, s, idxWithin, name, color, layer, x, y, status, now);
  }

  /** All 121 seed plates, `picks[k]` naming plate k. */
  ghost function SeedPlan(picks: seq<Picks>, now: string): (r: seq<Device>)
    requires SEED_COUNT <= |picks| && AllValid(picks)
  {
    seq(SEED_COUNT, k requires 0 <= k < SEED_COUNT => SeedDevice(k, PlateNameOf(picks[k]), now))
  }

  /** `ds` holds the first |ds| seed plates. */
  ghost predicate IsSeedPrefix(ds: seq<Device>, picks: seq<Picks>, now: string)
  {
    SEED_COUNT <= |picks| && AllValid(picks) && |ds| <= SEED_COUNT && ds == SeedPlan(picks, now)[..|ds|]
  }

  lemma SeedPrefixSnoc(ds: seq<Device>, device: Device, picks: seq<Picks>, now: string)
    requires IsSeedPrefix(ds, picks, now) && |ds| < SEED_COUNT
    requires device == SeedDevice(|ds|, PlateNameOf(picks[|ds|]), now)
    ensures IsSeedPrefix(ds + [device], picks, now)
  {
    var plan := SeedPlan(picks, now);
    assert plan[|ds|] == device;
    PrefixSnoc(ds, plan, device);
  }

  /** A prefix of `plan` extended by the next item of `plan`. */
  lemma PrefixSnoc<T>(ds: seq<T>, plan: seq<T>, x: T)
    requires |ds| < |plan| && ds == plan[..|ds|] && x == plan[|ds|]
    ensures ds + [x] == plan[..|ds| + 1]
  {
  }

  lemma SeedPrefixFull(ds: seq<Device>, picks: seq<Picks>, now: string)
    requires IsSeedPrefix(ds, picks, now) && |ds| == SEED_COUNT
    ensures forall k :: 0 <= k < SEED_COUNT ==> ds[k] == SeedDevice(k, PlateNameOf(picks[k]), now)
  {
    var plan := SeedPlan(picks, now);
    assert ds == plan;
  }

  /** `generateDevices`: screen A as 9x9, then screens B and C as 5x4 each,
      with `globalId`/`globalSeq` counting 1..121. `picks[k]` names device k. */
  method GenerateDevices(picks: seq<Picks>, now: string) returns (ds: seq<Device>)
    requires SEED_COUNT <= |picks| && AllValid(picks)
    ensures |ds| == SEED_COUNT
    ensures forall k :: 0 <= k < SEED_COUNT ==> ds[k] == SeedDevice(k, PlateNameOf(picks[k]), now)
  {
    ds := [];
    assert IsSeedPrefix(ds, picks, now);
    var globalSeq := 1;
    for x := 1 to 10
      invariant |ds| == (x - 1) * 9 && globalSeq == |ds| + 1
      invariant IsSeedPrefix(ds, picks, now)
    {
      for y := 1 to 10
        invariant |ds| == (x - 1) * 9 + (y - 1) && globalSeq == |ds| + 1
        invariant IsSeedPrefix(ds, picks, now)
      {
        var name := BuildPlateName(picks[|ds|]);
        var device := MakeDeviceA(x, y, name, now);
        SeedDeviceA(|ds|, x, y, name, now);
        SeedPrefixSnoc(ds, device, picks, now);
        ds := ds + [device];
        globalSeq := globalSeq + 1;
      }
    }
    for si := 0 to 2
      invariant |ds| == COUNT_A + si * 20 && globalSeq == |ds| + 1
      invariant IsSeedPrefix(ds, picks, now)
    {
      for x := 1 to 6
        invariant |ds| == COUNT_A + si * 20 + (x - 1) * 4 && globalSeq == |ds| + 1
        invariant IsSeedPrefix(ds, picks, now)
      {
        for y := 1 to 5
          invariant |ds| == COUNT_A + si * 20 + (x - 1) * 4 + (y - 1) && globalSeq == |ds| + 1
          invariant IsSeedPrefix(ds, picks, now)
        {
          var name := BuildPlateName(picks[|ds|]);
          var device := MakeDeviceBC(si, x, y, globalSeq, name, now);
          SeedDeviceBC(|ds|, si, x, y, name, now);
          SeedPrefixSnoc(ds, device, picks, now);
          ds := ds + [device];
          globalSeq := globalSeq + 1;
        }
      }
    }
    SeedPrefixFull(ds, picks, now);
  }

  /** The seed's ids, screens and coordinates: ids and sequence numbers run
      1..121 in order, screen A covers (x, y) in [1..9]x[1..9] and screens B
      and C cover [1..5]x[1..4], every plate a hard one. */
  lemma SeedLayout(k: nat, name: string, now: string)
    requires k < SEED_COUNT
    ensures var d := SeedDevice(k, name, now);
      && d.id == k + 1 && d.sequence == k + 1 && d.plateType == HARD && d.pressurePlateName == name
      && (k < COUNT_A ==> d.protectionScreen == SCREEN_A && 1 <= d.positionX <= 9 && 1 <= d.positionY <= 9
                          && (d.positionX - 1) * 9 + d.positionY == k + 1)
      && (COUNT_A <= k < COUNT_A + 20 ==> d.protectionScreen == SCREENS_BC[0])
      && (COUNT_A + 20 <= k ==> d.protectionScreen == SCREENS_BC[1])
      && (COUNT_A <= k ==> 1 <= d.positionX <= 5 && 1 <= d.positionY <= 4
                           && (d.positionX - 1) * 4 + d.positionY == (k - COUNT_A) % 20 + 1)
  {
  }

  /** No two seed plates of one screen share a cell, so the position grid of
      seed data never has to choose between two plates. */
  lemma SeedCellsDistinct(k1: nat, k2: nat, name1: string, name2: string, now: string)
    requires k1 < k2 < SEED_COUNT
    ensures var d1, d2 := SeedDevice(k1, name1, now), SeedDevice(k2, name2, now);
      d1.protectionScreen == d2.protectionScreen ==>
        (d1.positionX, d1.positionY) != (d2.positionX, d2.positionY)
  {
    SeedLayout(k1, name1, now);
    SeedLayout(k2, name2, now);
  }

  /** Plate k (0-based) of screen A carries the colour, status and layer of
      its index k + 1 and row k / 9 + 1. */
  lemma SeedAFields(k: nat, name: string, now: string)
    requires k < COUNT_A
    ensures var d := SeedDevice(k, name, now);
      && d.pressurePlateTypeColor == ColorA(k + 1)
      && d.pressurePlateStatus == Some(StatusA(k + 1))
      && d.pressurePlatePosition == LayerA(k / 9 + 1)
  {
  }

  /** Plate k (0-based) of screen A: the colour bands are the first 30 red,
      the next 28 yellow, the next 15 gray and the last 8 black; every fourth
      plate is 退出 and the others 投入; rows 1-3, 4-6 and 7-9 are the top,
      middle and bottom layers, 27 plates each. */
  lemma SeedScreenA(k: nat, name: string, now: string)
    requires k < COUNT_A
    ensures var d := SeedDevice(k, name, now);
      && (d.pressurePlateTypeColor == "red" <==> k < 30)
      && (d.pressurePlateTypeColor == "yellow" <==> 30 <= k < 58)
      && (d.pressurePlateTypeColor == "gray" <==> 58 <= k < 73)
      && (d.pressurePlateTypeColor == "black" <==> 73 <= k)
      && (d.pressurePlateStatus == Some(ON) <==> k % 4 != 3)
      && (d.pressurePlateStatus == Some(OFF) <==> k % 4 == 3)
      && (d.pressurePlatePosition == "top" <==> k < 27)
      && (d.pressurePlatePosition == "middle" <==> 27 <= k < 54)
      && (d.pressurePlatePosition == "bottom" <==> 54 <= k)
  {
    SeedAFields(k, name, now);
  }

  /** The plate at row x, column y of screen B or C is 投入 exactly in the odd
      rows, and its colour is picked by its sequence number plus its coordinates. */
  lemma SeedBCFields(si: nat, x: int, y: int, name: string, now: string)
    requires si < 2 && 1 <= x <= 5 && 1 <= y <= 4
    ensures var d := SeedBC(si, x, y, name, now);
      && d.protectionScreen == SCREENS_BC[si] && d.positionX == x && d.positionY == y
      && (d.pressurePlateStatus == Some(ON) <==> d.positionX % 2 == 1)
      && (d.pressurePlateStatus == Some(OFF) <==> d.positionX % 2 == 0)
      && d.pressurePlateTypeColor == COLORS_BC[(d.sequence + d.positionX + d.positionY) % 3]
      && (d.pressurePlatePosition == "top" <==> d.positionX <= 2)
      && (d.pressurePlatePosition == "middle" <==> 3 <= d.positionX <= 4)
      && (d.pressurePlatePosition == "bottom" <==> d.positionX == 5)
  {
    var d := SeedBC(si, x, y, name, now);
    var no := COUNT_A + si * 20 + (x - 1) * 4 + y;
    assert d.sequence == no && d.positionX == x && d.positionY == y;
    assert d.pressurePlateStatus == Some(if (no + x + y) % 2 == 0 then ON else OFF);
    ParityBC(si, x, y);
    assert ON[0] != OFF[0];
    assert d.pressurePlatePosition == LayerBC(x);
    assert |"top"| == 3 && "middle"[0] != "bottom"[0];
  }

  /** The running sequence number plus the row and column is even exactly in the odd rows. */
  lemma ParityBC(si: nat, x: int, y: int)
    requires si < 2 && 1 <= x <= 5 && 1 <= y <= 4
    ensures (COUNT_A + si * 20 + (x - 1) * 4 + y + x + y) % 2 == 0 <==> x % 2 == 1
  {
    assert COUNT_A + si * 20 + (x - 1) * 4 + y + x + y == 2 * (38 + si * 10 + 2 * x + y) + 1 + x;
  }

  /** Plate k (0-based), the plate at row x, column y of screen B (si = 0) or
      C (si = 1): it is 投入 exactly in the odd rows, its colour is picked by
      its sequence number plus its coordinates, and rows 1-2, 3-4 and 5 are
      the top, middle and bottom layers. */
  lemma SeedScreensBC(k: nat, si: nat, x: int, y: int, name: string, now: string)
    requires si < 2 && 1 <= x <= 5 && 1 <= y <= 4 && k == COUNT_A + si * 20 + (x - 1) * 4 + y - 1
    ensures var d := SeedDevice(k, name, now);
      && d.protectionScreen == SCREENS_BC[si] && d.positionX == x && d.positionY == y
      && (d.pressurePlateStatus == Some(ON) <==> x % 2 == 1)
      && (d.pressurePlateStatus == Some(OFF) <==> x % 2 == 0)
      && d.pressurePlateTypeColor == COLORS_BC[(d.sequence + x + y) % 3]
      && (d.pressurePlatePosition == "top" <==> x <= 2)
      && (d.pressurePlatePosition == "middle" <==> 3 <= x <= 4)
      && (d.pressurePlatePosition == "bottom" <==> x == 5)
  {
    SeedDeviceBC(k, si, x, y, name, now);
    SeedBCFields(si, x, y, name, now);
  }

  /** Only the first 81 plates are on screen A. */
  lemma SeedScreenOf(k: nat, name: string, now: string)
    requires k < SEED_COUNT
    ensures SeedDevice(k, name, now).protectionScreen == SCREEN_A <==> k < COUNT_A
  {
    if COUNT_A <= k {
      BCForm(k, name, now);
      assert SCREEN_A[3] != SCREENS_BC[0][3] && SCREEN_A[3] != SCREENS_BC[1][3];
    }
  }
}
