/**
 * USB descriptor accessors (src/descriptor.rs): the USB version split, the configuration
 * descriptor's power fields and attribute bits, and class-code triples (sections 9.6.1, 9.6.3
 * and 9.6.5 of the USB 2.0 specification).
 */
module Descriptors {
  import opened Wrappers

  /** The device descriptor fields the accessors read. */
  datatype DeviceDescriptor = DeviceDescriptor(
    bLength: u8, bDescriptorType: u8, bcdUSB: bv16,
    bDeviceClass: u8, bDeviceSubClass: u8, bDeviceProtocol: u8, bMaxPacketSize0: u8,
    idVendor: u16, idProduct: u16)

  /** The interface descriptor fields the accessors read. */
  datatype InterfaceDescriptor = InterfaceDescriptor(
    bLength: u8, bDescriptorType: u8, bInterfaceNumber: u8, bAlternateSetting: u8,
    bNumEndpoints: u8, bInterfaceClass: u8, bInterfaceSubClass: u8, bInterfaceProtocol: u8)

  /** The configuration descriptor fields the accessors read. */
  datatype ConfigurationDescriptor = ConfigurationDescriptor(
    bLength: u8, bDescriptorType: u8, bNumInterfaces: u8, bConfigurationValue: u8,
    bmAttributes: bv8, maxPower: u8)

  /** `UsbVersion`: the binary-coded-decimal `bcdUSB` word. */
  datatype UsbVersion = UsbVersion(bcd: bv16)

  /** `DeviceDescriptor::usb_version`. */
  function UsbVersionOf(d: DeviceDescriptor): UsbVersion
  {
    UsbVersion(d.bcdUSB)
  }

  /** `UsbVersion::major`: the high byte. */
  function Major(v: UsbVersion): bv16 { v.bcd >> 8 }

  /** `UsbVersion::minor`: the low byte. */
  function Minor(v: UsbVersion): bv16 { v.bcd & 0xFF }

  /** The two parts are bytes and recompose the version word: `major * 256 + minor == bcd`. */
  lemma UsbVersionParts(v: UsbVersion)
    ensures Major(v) < 256 && Minor(v) < 256
    ensures Major(v) * 256 + Minor(v) == v.bcd
  {
  }

  /** USB 2.0 is `bcdUSB` 0x0200: major 2, minor 0. */
  lemma UsbVersionExample()
    ensures Major(UsbVersion(0x0200)) == 2 && Minor(UsbVersion(0x0200)) == 0
  {
  }

  /**
   * `ConfigurationDescriptor::max_power` as written: `MaxPower * 2` in 8 bits. `None` stands for
   * the arithmetic overflow (a panic in a debug build) for every `MaxPower` of 128 and above.
   */
  function MaxPowerAsWritten(c: ConfigurationDescriptor): (r: Option<u8>)
    ensures r.Some? <==> c.maxPower < 128
  {
    if c.maxPower * 2 < 0x100 then Some(c.maxPower * 2) else None
  }

  /**
   * `max_power` in a build without overflow checks, Rust's default for release builds: the
   * doubling wraps modulo 256.
   */
  function MaxPowerUnchecked(c: ConfigurationDescriptor): (r: u8)
    ensures c.maxPower < 128 ==> r == c.maxPower * 2
    ensures c.maxPower >= 128 ==> r == c.maxPower * 2 - 256
  {
    (c.maxPower * 2) % 0x100
  }

  /** The maximum power in milliamps: the descriptor counts in 2 mA units, up to 510 mA. */
  function MaxPowerMilliamps(c: ConfigurationDescriptor): (ma: nat)
    ensures ma % 2 == 0 && ma <= 510
  {
    c.maxPower * 2
  }

  /**
   * The corrected value agrees with the source wherever the source does not overflow, and
   * every whole number of 2 mA units up to 255 is reported.
   */
  lemma MaxPowerCorrected(c: ConfigurationDescriptor)
    ensures MaxPowerAsWritten(c).Some? ==> MaxPowerAsWritten(c).value == MaxPowerMilliamps(c)
    ensures MaxPowerMilliamps(c) / 2 == c.maxPower
  {
  }

  /**
   * A bus-powered device drawing the USB 2.0 maximum of 500 mA (`MaxPower` 250) overflows: a
   * panic with overflow checks, and 244 mA without them.
   */
  lemma MaxPowerOverflowExample()
    ensures var c := ConfigurationDescriptor(9, 2, 1, 1, 0x80, 250);
      MaxPowerAsWritten(c).None? && MaxPowerUnchecked(c) == 244 && MaxPowerMilliamps(c) == 500
  {
  }

  /**
   * Without overflow checks every `MaxPower` of 128 or more reports 256 mA less than the
   * milliamp figure, and every smaller one reports it exactly.
   */
  lemma MaxPowerUncheckedWraps(c: ConfigurationDescriptor)
    ensures c.maxPower >= 128 ==> MaxPowerUnchecked(c) as int == MaxPowerMilliamps(c) - 256
    ensures c.maxPower < 128 ==> MaxPowerUnchecked(c) as int == MaxPowerMilliamps(c)
  {
  }

  /** `self_powered`: bit 6 (0x40) of `bmAttributes`. */
  predicate SelfPowered(c: ConfigurationDescriptor) { c.bmAttributes & 0x40 != 0 }

  /** `remote_wakeup`: bit 5 (0x20) of `bmAttributes`. */
  predicate RemoteWakeup(c: ConfigurationDescriptor) { c.bmAttributes & 0x20 != 0 }

  /** Each attribute is the matching binary digit of the attribute byte. */
  lemma AttributeBits(c: ConfigurationDescriptor)
    ensures SelfPowered(c) <==> (c.bmAttributes as int / 64) % 2 == 1
    ensures RemoteWakeup(c) <==> (c.bmAttributes as int / 32) % 2 == 1
  {
    var a := c.bmAttributes;
    assert (a & 0x40 != 0) <==> ((a >> 6) & 1 == 1);
    assert (a & 0x20 != 0) <==> ((a >> 5) & 1 == 1);
    assert (a >> 6) as int == a as int / 64;
    assert (a >> 5) as int == a as int / 32;
    assert ((a >> 6) & 1) as int == (a >> 6) as int % 2;
    assert ((a >> 5) & 1) as int == (a >> 5) as int % 2;
  }

  /** `ClassCodes`: class, subclass and protocol. */
  datatype ClassCodes = ClassCodes(classCode: u8, subclass: u8, protocol: u8)

  /** `DeviceDescriptor::class_codes`. */
  function DeviceClassCodes(d: DeviceDescriptor): (cc: ClassCodes)
    ensures cc.classCode == d.bDeviceClass && cc.subclass == d.bDeviceSubClass
    ensures cc.protocol == d.bDeviceProtocol
  {
    ClassCodes(d.bDeviceClass, d.bDeviceSubClass, d.bDeviceProtocol)
  }

  /** `InterfaceDescriptor::class_codes`. */
  function InterfaceClassCodes(i: InterfaceDescriptor): (cc: ClassCodes)
    ensures cc.classCode == i.bInterfaceClass && cc.subclass == i.bInterfaceSubClass
    ensures cc.protocol == i.bInterfaceProtocol
  {
    ClassCodes(i.bInterfaceClass, i.bInterfaceSubClass, i.bInterfaceProtocol)
  }
}
