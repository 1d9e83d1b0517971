/**
 * The chip's optional-feature word and battery-charging byte
 * (src/configuration/optional.rs). Bit 0 enables battery charging, bit 1 disables the
 * underrun check, bits 2..5 enable notification messages on the in pipes and bits 6..9
 * disable the underrun check per in pipe. The battery byte packs three 2-bit charging modes.
 */
module OptionalConfig {
  import opened Wrappers
  import opened Pipes

  const FLAG_BATTERY_CHARGING_ENABLE: bv16 := 0x0001
  const FLAG_NOTIFICATION_ENABLE_PIPE0: bv16 := 0x0004
  const FLAG_UNDERRUN_DISABLE_PIPE0: bv16 := 0x0040
  const FLAG_UNDERRUN_DISABLE: bv16 := 0x0002
  const FLAG_ALL_ENABLED: bv16 := 0xFFFF

  const FLAG_CHARGING_MODE_DCP: bv8 := 0xC0
  const FLAG_CHARGING_MODE_CDP: bv8 := 0x30
  const FLAG_CHARGING_MODE_SDP: bv8 := 0x0C
  const OFFSET_CHARGING_MODE_DCP: nat := 6
  const OFFSET_CHARGING_MODE_CDP: nat := 4
  const OFFSET_CHARGING_MODE_SDP: nat := 2

  /** The battery-charging configuration byte. */
  datatype BatteryChargingModes = BatteryChargingModes(bits: bv8)

  /** The feature word and, when charging is enabled, the battery byte. */
  datatype OptionalFeatures = OptionalFeatures(flags: bv16, batteryCharging: Option<BatteryChargingModes>)

  /** `OptionalFeatures::new`: the battery byte is kept only when bit 0 of the word is set. */
  function NewOptionalFeatures(flags: bv16, batteryFlags: bv8): OptionalFeatures
  {
    OptionalFeatures(flags,
      if flags & FLAG_BATTERY_CHARGING_ENABLE == 0 then None
      else Some(BatteryChargingModes(batteryFlags)))
  }

  /** `all_disabled`. */
  predicate AllDisabled(o: OptionalFeatures)
  {
    o.flags == 0
  }

  /** `all_enabled`. */
  predicate AllEnabled(o: OptionalFeatures)
  {
    o.flags == FLAG_ALL_ENABLED
  }

  /** `underrun_check_enabled`: the global disable bit is clear. */
  predicate UnderrunCheckEnabled(o: OptionalFeatures)
  {
    o.flags & FLAG_UNDERRUN_DISABLE == 0
  }

  /** Bit `k` of a word, as a reference for the masks below. */
  predicate Bit(w: bv16, k: bv16)
    requires k < 16
  {
    (w >> k) & 1 == 1
  }

  // ----- Per-pipe queries ------------------------------------------------------------------

  /** The position of an in pipe among the four: In0 is 0, In3 is 3. */
  function InPipeIndex(p: Pipe): (i: bv16)
    requires IsIn(p)
    ensures i < 4
  {
    match p
    case In0 => 0
    case In1 => 1
    case In2 => 2
    case In3 => 3
  }

  /** The position is the pipe's offset from the first in-pipe address, 0x82. */
  lemma InPipeIndexIsOffset(p: Pipe)
    requires IsIn(p)
    ensures PipeByte(p) == 0x82 + InPipeIndex(p) as bv8
  {
  }

  /** The notification bit of an in pipe: bit 2 for In0 up to bit 5 for In3. */
  function NotificationMask(p: Pipe): bv16
    requires IsIn(p)
  {
    FLAG_NOTIFICATION_ENABLE_PIPE0 << InPipeIndex(p)
  }

  /** The underrun-disable bit of an in pipe: bit 6 for In0 up to bit 9 for In3. */
  function UnderrunMask(p: Pipe): bv16
    requires IsIn(p)
  {
    FLAG_UNDERRUN_DISABLE_PIPE0 << InPipeIndex(p)
  }

  /** `notification_message_enabled`, shifting by the pipe's position (the intended reading). */
  predicate NotificationMessageEnabled(o: OptionalFeatures, p: Pipe)
    requires IsIn(p)
  {
    o.flags & NotificationMask(p) != 0
  }

  /** `underrun_disabled`, shifting by the pipe's position (the intended reading). */
  predicate UnderrunDisabled(o: OptionalFeatures, p: Pipe)
    requires IsIn(p)
  {
    o.flags & UnderrunMask(p) != 0
  }

  /** Battery charging is on exactly when bit 0 is set, and then keeps the battery byte as given. */
  lemma BatteryChargingBit(flags: bv16, batteryFlags: bv8)
    ensures NewOptionalFeatures(flags, batteryFlags).batteryCharging.Some? <==> Bit(flags, 0)
    ensures NewOptionalFeatures(flags, batteryFlags).batteryCharging.Some? ==>
      NewOptionalFeatures(flags, batteryFlags).batteryCharging.value.bits == batteryFlags
    ensures NewOptionalFeatures(flags, batteryFlags).flags == flags
  {
  }

  /** The underrun check is on exactly when bit 1 is clear. */
  lemma UnderrunCheckBit(o: OptionalFeatures)
    ensures UnderrunCheckEnabled(o) <==> !Bit(o.flags, 1)
  {
  }

  /** In pipe `i` has notifications on exactly when bit `2 + i` is set. */
  lemma NotificationBit(o: OptionalFeatures, p: Pipe)
    requires IsIn(p)
    ensures NotificationMessageEnabled(o, p) <==> Bit(o.flags, 2 + InPipeIndex(p))
  {
  }

  /** In pipe `i` has its underrun check off exactly when bit `6 + i` is set. */
  lemma UnderrunBit(o: OptionalFeatures, p: Pipe)
    requires IsIn(p)
    ensures UnderrunDisabled(o, p) <==> Bit(o.flags, 6 + InPipeIndex(p))
  {
  }

  /** The ten per-pipe bits are distinct from each other and from bits 0 and 1. */
  lemma MasksDisjoint(p: Pipe, q: Pipe)
    requires IsIn(p) && IsIn(q)
    ensures p != q ==> NotificationMask(p) & NotificationMask(q) == 0
    ensures p != q ==> UnderrunMask(p) & UnderrunMask(q) == 0
    ensures NotificationMask(p) & UnderrunMask(q) == 0
    ensures (NotificationMask(p) | UnderrunMask(q)) & (FLAG_BATTERY_CHARGING_ENABLE | FLAG_UNDERRUN_DISABLE) == 0
  {
  }

  /**
   * A word of all zeros disables every feature and a word of all ones enables every one of
   * them (and disables every underrun check).
   */
  lemma AllDisabledOrEnabled(flags: bv16, batteryFlags: bv8, p: Pipe)
    requires IsIn(p)
    ensures var o := NewOptionalFeatures(flags, batteryFlags); AllDisabled(o) ==>
      o.batteryCharging.None? && UnderrunCheckEnabled(o) &&
      !NotificationMessageEnabled(o, p) && !UnderrunDisabled(o, p)
    ensures var o := NewOptionalFeatures(flags, batteryFlags); AllEnabled(o) ==>
      o.batteryCharging.Some? && !UnderrunCheckEnabled(o) &&
      NotificationMessageEnabled(o, p) && UnderrunDisabled(o, p)
  {
    match p
    case In0 =>
    case In1 =>
    case In2 =>
    case In3 =>
  }

  // ----- The per-pipe queries as written ---------------------------------------------------

  /** Rust's `<<` on `u16` with overflow checks: a shift by 16 or more panics (`None`). */
  function CheckedShl16(x: bv16, n: bv16): (r: Option<bv16>)
    ensures r.Some? <==> n < 16
  {
    if n < 16 then Some(x << n) else None
  }

  /** Rust's `<<` on `u16` without overflow checks: only the low four bits of the amount count. */
  function WrappingShl16(x: bv16, n: bv16): bv16
  {
    x << (n & 15)
  }

  /** The endpoint address of a pipe widened to `u16` (`in_pipe as u16`), 0x82..0x85 for in pipes. */
  function PipeShift(p: Pipe): (n: bv16)
    ensures IsIn(p) ==> 0x82 <= n <= 0x85
  {
    match p
    case In0 => 0x82
    case In1 => 0x83
    case In2 => 0x84
    case In3 => 0x85
    case Out0 => 0x02
    case Out1 => 0x03
    case Out2 => 0x04
    case Out3 => 0x05
  }

  /** The shift amount is the pipe's endpoint address. */
  lemma PipeShiftIsAddress(p: Pipe)
    ensures PipeShift(p) == PipeByte(p) as bv16
  {
  }

  /**
   * `notification_message_enabled` as written: the flag is shifted by the pipe's endpoint
   * address. `None` is the overflow panic of a checked build.
   */
  function NotificationMessageEnabledAsWritten(o: OptionalFeatures, p: Pipe): Option<bool>
    requires IsIn(p)
  {
    match CheckedShl16(FLAG_NOTIFICATION_ENABLE_PIPE0, PipeShift(p))
    case None => None
    case Some(mask) => Some(o.flags & mask != 0)
  }

  /** `underrun_disabled` as written, with the same shift by the endpoint address. */
  function UnderrunDisabledAsWritten(o: OptionalFeatures, p: Pipe): Option<bool>
    requires IsIn(p)
  {
    match CheckedShl16(FLAG_UNDERRUN_DISABLE_PIPE0, PipeShift(p))
    case None => None
    case Some(mask) => Some(o.flags & mask != 0)
  }

  /** The same two queries in a build without overflow checks. */
  predicate NotificationMessageEnabledUnchecked(o: OptionalFeatures, p: Pipe)
    requires IsIn(p)
  {
    o.flags & WrappingShl16(FLAG_NOTIFICATION_ENABLE_PIPE0, PipeShift(p)) != 0
  }

  predicate UnderrunDisabledUnchecked(o: OptionalFeatures, p: Pipe)
    requires IsIn(p)
  {
    o.flags & WrappingShl16(FLAG_UNDERRUN_DISABLE_PIPE0, PipeShift(p)) != 0
  }

  /** The address of every in pipe is at least 16, so with overflow checks both queries always panic. */
  lemma PerPipeQueriesOverflow(o: OptionalFeatures, p: Pipe)
    requires IsIn(p)
    ensures NotificationMessageEnabledAsWritten(o, p).None?
    ensures UnderrunDisabledAsWritten(o, p).None?
  {
  }

  /**
   * Without overflow checks the shift is by 2..5 instead of 0..3, so the queries read the
   * bits of other features: In0's notification query reads In2's notification bit, and
   * In2's reads In0's underrun bit.
   */
  lemma UncheckedQueriesReadOtherBits(o: OptionalFeatures)
    ensures NotificationMessageEnabledUnchecked(o, In0) == NotificationMessageEnabled(o, In2)
    ensures NotificationMessageEnabledUnchecked(o, In2) == UnderrunDisabled(o, In0)
    ensures UnderrunDisabledUnchecked(o, In0) == UnderrunDisabled(o, In2)
  {
    assert WrappingShl16(FLAG_NOTIFICATION_ENABLE_PIPE0, PipeShift(In0)) == 0x10 == NotificationMask(In2);
    assert WrappingShl16(FLAG_NOTIFICATION_ENABLE_PIPE0, PipeShift(In2)) == 0x40 == UnderrunMask(In0);
    assert WrappingShl16(FLAG_UNDERRUN_DISABLE_PIPE0, PipeShift(In0)) == 0x100 == UnderrunMask(In2);
  }

  /** A word with only In1's notification bit set: the unchecked query for In1 answers no. */
  lemma UncheckedQueryMissesOwnBit()
    ensures var o := NewOptionalFeatures(0x0008, 0);
      NotificationMessageEnabled(o, In1) && !NotificationMessageEnabledUnchecked(o, In1)
  {
  }

  // ----- Battery charging ------------------------------------------------------------------

  /** `dcp`: bits 6..7 of the battery byte. */
  function Dcp(m: BatteryChargingModes): bv8
  {
    (m.bits & FLAG_CHARGING_MODE_DCP) >> OFFSET_CHARGING_MODE_DCP
  }

  /** `cdp`: bits 4..5. */
  function Cdp(m: BatteryChargingModes): bv8
  {
    (m.bits & FLAG_CHARGING_MODE_CDP) >> OFFSET_CHARGING_MODE_CDP
  }

  /** `sdp`: bits 2..3. */
  function Sdp(m: BatteryChargingModes): bv8
  {
    (m.bits & FLAG_CHARGING_MODE_SDP) >> OFFSET_CHARGING_MODE_SDP
  }

  /**
   * Each mode is a 2-bit value, and the three modes put back in place give the battery byte
   * without its two low bits, so the modes are independent fields.
   */
  lemma ChargingModeFields(m: BatteryChargingModes)
    ensures Dcp(m) <= 3 && Cdp(m) <= 3 && Sdp(m) <= 3
    ensures (Dcp(m) << 6) | (Cdp(m) << 4) | (Sdp(m) << 2) == m.bits & 0xFC
  {
  }

  /** Building a byte from three 2-bit modes and reading them back gives the same modes. */
  lemma ChargingModeRoundTrip(dcp: bv8, cdp: bv8, sdp: bv8, low: bv8)
    requires dcp <= 3 && cdp <= 3 && sdp <= 3 && low <= 3
    ensures var m := BatteryChargingModes((dcp << 6) | (cdp << 4) | (sdp << 2) | low);
      Dcp(m) == dcp && Cdp(m) == cdp && Sdp(m) == sdp
  {
  }
}
