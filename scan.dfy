/**
 * Device enumeration (src/scan.rs): decoding the driver's device-list nodes and building the
 * device list, never keeping more entries than the buffer holds.
 */
module Scan {
  import opened Wrappers
  import opened D3xxErrors
  import opened NativeDriver

  /** `FT_FLAGS` bits of a device-list node. */
  const FLAGS_OPENED: bv32 := 1
  const FLAGS_HISPEED: bv32 := 2
  const FLAGS_SUPERSPEED: bv32 := 4

  /** `FT_DEVICE_LIST_INFO_NODE`: the strings are NUL-terminated byte arrays of 16 and 32 bytes. */
  datatype DeviceListInfoNode = DeviceListInfoNode(
    flags: bv32, deviceType: u32, id: bv32, locId: u32,
    serialNumber: seq<u8>, description: seq<u8>, ftHandle: Handle)

  /** `DeviceType`. */
  datatype DeviceType = Unknown | FT600 | FT601

  /** `DeviceInfo`: the text fields are kept as the bytes before the terminating NUL. */
  datatype DeviceInfo = DeviceInfo(
    flags: bv32, deviceType: DeviceType, vid: bv16, pid: bv16, locationId: u32,
    serialNumber: seq<u8>, description: seq<u8>, handle: Handle)

  /** `DeviceType::from`: 600 and 601 name the two chips, every other value is unknown. */
  function DeviceTypeFrom(value: u32): (t: DeviceType)
    ensures t == FT600 <==> value == 600
    ensures t == FT601 <==> value == 601
    ensures t == Unknown <==> value != 600 && value != 601
  {
    match value
    case 600 => FT600
    case 601 => FT601
    case _ => Unknown
  }

  /** The type value the driver reports for each known chip. */
  function DeviceTypeValue(t: DeviceType): u32
    requires t != Unknown
  {
    match t
    case FT600 => 600
    case FT601 => 601
  }

  /**
   * Each known chip is decoded from its own type value, and `Unknown` is what every value
   * naming no chip decodes to, so two values decode alike exactly when both name no chip or
   * both name the same one.
   */
  lemma DeviceTypeRoundTrip(t: DeviceType, v: u32, w: u32)
    ensures t != Unknown ==> DeviceTypeFrom(DeviceTypeValue(t)) == t
    ensures DeviceTypeFrom(v) != Unknown ==> DeviceTypeValue(DeviceTypeFrom(v)) == v
    ensures DeviceTypeFrom(v) == DeviceTypeFrom(w) <==>
      v == w || (DeviceTypeFrom(v) == Unknown && DeviceTypeFrom(w) == Unknown)
  {
  }

  /** The bytes of a C string up to, and not including, its first NUL. */
  function CStrBytes(s: seq<u8>): (r: seq<u8>)
    requires 0 in s
    ensures |r| < |s| && r == s[..|r|] && s[|r|] == 0
    ensures 0 !in r
  {
    if s[0] == 0 then [] else [s[0]] + CStrBytes(s[1..])
  }

  /** The NUL-free prefix ending at a NUL is exactly what `CStrBytes` keeps. */
  lemma {:induction false} CStrBytesIsPrefix(s: seq<u8>, n: nat)
    requires n < |s| && s[n] == 0 && 0 !in s[..n]
    ensures CStrBytes(s) == s[..n]
  {
    if n > 0 {
      assert s[0] in s[..n];
      assert s[1..][..n - 1] == s[1..n];
      assert s[1..n] == s[..n][1..];
      CStrBytesIsPrefix(s[1..], n - 1);
      assert s[..n] == [s[0]] + s[1..][..n - 1];
    }
  }

  /** `DeviceInfo::from`: vid and pid are the high and low halves of the ID word. */
  function DeviceInfoFrom(node: DeviceListInfoNode): DeviceInfo
    requires 0 in node.serialNumber && 0 in node.description
  {
    DeviceInfo(
      node.flags, DeviceTypeFrom(node.deviceType),
      (node.id >> 16) as bv16, (node.id & 0xffff) as bv16,
      node.locId, CStrBytes(node.serialNumber), CStrBytes(node.description), node.ftHandle)
  }

  /**
   * The conversion loses nothing of the ID word, copies flags, location and handle unchanged,
   * and keeps each string up to its first NUL.
   */
  lemma DeviceInfoFromSpec(node: DeviceListInfoNode)
    requires 0 in node.serialNumber && 0 in node.description
    ensures var info := DeviceInfoFrom(node);
      ((info.vid as bv32) << 16) | (info.pid as bv32) == node.id
    ensures var info := DeviceInfoFrom(node);
      info.flags == node.flags && info.locationId == node.locId && info.handle == node.ftHandle
    ensures DeviceInfoFrom(node).deviceType == DeviceTypeFrom(node.deviceType)
    ensures var info := DeviceInfoFrom(node);
      info.serialNumber == node.serialNumber[..|info.serialNumber|] &&
      node.serialNumber[|info.serialNumber|] == 0 && 0 !in info.serialNumber
    ensures var info := DeviceInfoFrom(node);
      info.description == node.description[..|info.description|] &&
      node.description[|info.description|] == 0 && 0 !in info.description
  {
    var id := node.id;
    var hi, lo := (id >> 16) as bv16, (id & 0xffff) as bv16;
    assert (hi as bv32) << 16 == id & 0xffff_0000;
    assert lo as bv32 == id & 0xffff;
  }

  /** `is_open`. */
  predicate IsOpen(info: DeviceInfo) { info.flags & FLAGS_OPENED != 0 }

  /** `is_hispeed`. */
  predicate IsHispeed(info: DeviceInfo) { info.flags & FLAGS_HISPEED != 0 }

  /** `is_superspeed`. */
  predicate IsSuperspeed(info: DeviceInfo) { info.flags & FLAGS_SUPERSPEED != 0 }

  /**
   * Each predicate tests its own bit: with no flag set none holds, and with exactly one of the
   * three flags set exactly the matching predicate holds.
   */
  lemma FlagPredicates(info: DeviceInfo)
    ensures info.flags == 0 ==> !IsOpen(info) && !IsHispeed(info) && !IsSuperspeed(info)
    ensures info.flags == FLAGS_OPENED ==> IsOpen(info) && !IsHispeed(info) && !IsSuperspeed(info)
    ensures info.flags == FLAGS_HISPEED ==> !IsOpen(info) && IsHispeed(info) && !IsSuperspeed(info)
    ensures info.flags == FLAGS_SUPERSPEED ==> !IsOpen(info) && !IsHispeed(info) && IsSuperspeed(info)
  {
  }

  /** The example node's serial number, "ABC123" padded with NULs. */
  lemma SerialExample()
    ensures CStrBytes([65, 66, 67, 49, 50, 51, 0, 0]) == [65, 66, 67, 49, 50, 51]
  {
    var serial: seq<u8> := [65, 66, 67, 49, 50, 51, 0, 0];
    assert serial[6] == 0 && serial[1..][1..][1..][1..][1..][1..] == serial[6..];
  }

  /** The example node's description, "FT601" and its NUL. */
  lemma DescriptionExample()
    ensures CStrBytes([70, 84, 54, 48, 49, 0]) == [70, 84, 54, 48, 49]
  {
    var description: seq<u8> := [70, 84, 54, 48, 49, 0];
    assert description[1..][1..][1..][1..][1..] == description[5..];
  }

  /** The conversion of the documented example node. */
  lemma DeviceInfoExample()
    ensures var node := DeviceListInfoNode(1, 600, 0x0403_6010, 2,
                                           [65, 66, 67, 49, 50, 51, 0, 0], [70, 84, 54, 48, 49, 0], 0);
      DeviceInfoFrom(node) == DeviceInfo(1, FT600, 0x0403, 0x6010, 2,
                                         [65, 66, 67, 49, 50, 51], [70, 84, 54, 48, 49], 0)
  {
    SerialExample();
    DescriptionExample();
  }

  /**
   * `list_devices`: builds the driver's device table, fetches it into a buffer of the reported
   * size, and converts the first `min(capacity, table length)` nodes in order. `table` holds the
   * nodes the driver wrote. `numDevices` is the count the first call reports and the buffer's
   * capacity; the second call is not told it.
   */
  method ListDevices(driver: Driver, createStatus: Status, numDevices: u32,
                     getStatus: Status, tableLen: u32, table: seq<DeviceListInfoNode>)
    returns (r: D3xxResult<seq<DeviceInfo>>)
    requires |table| >= if numDevices < tableLen then numDevices else tableLen
    requires forall i :: 0 <= i < |table| ==>
      0 in table[i].serialNumber && 0 in table[i].description
    modifies driver
    ensures driver.calls == old(driver.calls) + [CreateDeviceInfoList] +
      (if createStatus == 0 then [GetDeviceInfoList] else [])
    ensures r.Ok? <==> createStatus == 0 && getStatus == 0
    ensures createStatus != 0 ==> r == Err(FromStatus(createStatus))
    ensures createStatus == 0 && getStatus != 0 ==> r == Err(FromStatus(getStatus))
    ensures r.Ok? ==>
      |r.value| <= numDevices && |r.value| <= tableLen &&
      (|r.value| == numDevices || |r.value| == tableLen)
    ensures r.Ok? ==> forall i :: 0 <= i < |r.value| ==> r.value[i] == DeviceInfoFrom(table[i])
  {
    driver.Issue(CreateDeviceInfoList);
    var created := TryD3xx(createStatus);
    if created.Err? {
      return Err(created.error);
    }
    var capacity := numDevices as nat;
    driver.Issue(GetDeviceInfoList);
    var fetched := TryD3xx(getStatus);
    if fetched.Err? {
      return Err(fetched.error);
    }
    var safeLen := if capacity < tableLen as nat then capacity else tableLen as nat;
    var nodes := table[..safeLen];
    r := Ok(seq(safeLen, i requires 0 <= i < safeLen => DeviceInfoFrom(nodes[i])));
  }
}
