/**
 * The chip's power configuration (src/configuration/power.rs): the attribute byte, laid out
 * like a configuration descriptor's `bmAttributes` (bit 6 self-powered, bit 5 remote
 * wakeup), and the maximum power consumption.
 */
module PowerConfiguration {
  import opened Wrappers
  import Descriptors

  const SELF_POWERED: bv8 := 0x40
  const REMOTE_WAKEUP: bv8 := 0x20

  /** `PowerConfig::new` stores both fields as given. */
  datatype PowerConfig = PowerConfig(flags: bv8, maxPower: u16)

  /** `self_powered`. */
  predicate SelfPowered(c: PowerConfig)
  {
    c.flags & SELF_POWERED != 0
  }

  /** `bus_powered`: defined in the source as "not self-powered". */
  predicate BusPowered(c: PowerConfig)
  {
    !SelfPowered(c)
  }

  /** `remote_wakeup`. */
  predicate RemoteWakeup(c: PowerConfig)
  {
    c.flags & REMOTE_WAKEUP != 0
  }

  /** `max_power`. */
  function MaxPower(c: PowerConfig): u16
  {
    c.maxPower
  }

  /**
   * Exactly one of bus- and self-powered holds; self-powered is bit 6 and remote wakeup bit 5
   * of the attribute byte, and the maximum power is the constructor's value.
   */
  lemma PowerBits(flags: bv8, maxPower: u16)
    ensures BusPowered(PowerConfig(flags, maxPower)) != SelfPowered(PowerConfig(flags, maxPower))
    ensures SelfPowered(PowerConfig(flags, maxPower)) <==> (flags >> 6) & 1 == 1
    ensures RemoteWakeup(PowerConfig(flags, maxPower)) <==> (flags >> 5) & 1 == 1
    ensures MaxPower(PowerConfig(flags, maxPower)) == maxPower
  {
  }

  /** The two attributes are independent: setting one bit leaves the other attribute as it was. */
  lemma AttributesIndependent(c: PowerConfig)
    ensures SelfPowered(c.(flags := c.flags | REMOTE_WAKEUP)) == SelfPowered(c)
    ensures RemoteWakeup(c.(flags := c.flags | SELF_POWERED)) == RemoteWakeup(c)
    ensures SelfPowered(c.(flags := c.flags | SELF_POWERED))
    ensures RemoteWakeup(c.(flags := c.flags | REMOTE_WAKEUP))
  {
  }

  /** The chip configuration reads its attribute byte the way a configuration descriptor does. */
  lemma AgreesWithConfigurationDescriptor(d: Descriptors.ConfigurationDescriptor, maxPower: u16)
    ensures SelfPowered(PowerConfig(d.bmAttributes, maxPower)) == Descriptors.SelfPowered(d)
    ensures RemoteWakeup(PowerConfig(d.bmAttributes, maxPower)) == Descriptors.RemoteWakeup(d)
  {
  }
}
