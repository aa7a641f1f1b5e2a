/** Vocabulary shared by the central and the two peripheral apps: bytes,
    optional values, connection handles, advertising data elements and the
    Bluetooth assigned numbers the apps use. */
module Ble {

  /** An unsigned 8-bit value, as C's `uint8_t`. */
  type uint8 = x: int | 0 <= x < 256

  /** `x++` on a `uint8_t`: wraps from 255 to 0. */
  function Inc8(x: uint8): (r: uint8)
    ensures x < 255 ==> r == x + 1
    ensures x == 255 ==> r == 0
  {
    if x == 255 then 0 else x + 1
  }

  /** `x--` on a `uint8_t`: wraps from 0 to 255. */
  function Dec8(x: uint8): (r: uint8)
    ensures x > 0 ==> r == x - 1
    ensures x == 0 ==> r == 255
  {
    if x == 0 then 255 else x - 1
  }

  /** A possibly-NULL pointer. */
  datatype Option<T> = None | Some(value: T)

  /** An opaque `struct bt_conn *` owned by the stack; two handles are the same
      connection exactly when they are equal. */
  datatype Handle = Handle(id: nat)

  /** An opaque LE peer address. */
  datatype Addr = Addr(id: nat)

  /** One parsed advertising data element: its AD type and its payload. */
  datatype AdElement = AdElement(kind: uint8, data: seq<uint8>)

  // AD types (Bluetooth Assigned Numbers, "Common Data Types").
  const AdTypeFlags: uint8 := 0x01
  const AdTypeUuid16All: uint8 := 0x03
  const AdTypeNameComplete: uint8 := 0x09

  // Advertising PDU types reported to a scanner.
  const AdvTypeAdvInd: uint8 := 0x00
  const AdvTypeAdvDirectInd: uint8 := 0x01

  // Bits of the Flags AD element.
  const AdFlagGeneral: uint8 := 0x02
  const AdFlagNoBrEdr: uint8 := 0x04

  // 16-bit service UUIDs.
  const UuidHeartRateService: nat := 0x180d
  const UuidBatteryService: nat := 0x180f
  const UuidDeviceInformationService: nat := 0x180a

  /** HCI error code "Unacceptable Connection Parameters". */
  const HciErrUnacceptConnParam: uint8 := 0x3b

  /** A 16-bit UUID as it appears on air: little-endian. */
  function Uuid16Encode(v: nat): (r: seq<uint8>)
    requires v < 0x1_0000
    ensures |r| == 2 && r[0] as int + 256 * (r[1] as int) == v
  {
    [v % 256, v / 256]
  }

  /** Advertising options the peripherals pass to the stack. */
  datatype AdvOption = Connectable | UseName | ForceNameInAd

  /** Advertising parameters: options and interval bounds in units of 0.625 ms. */
  datatype AdvParams = AdvParams(options: set<AdvOption>, intervalMin: nat, intervalMax: nat)
}
