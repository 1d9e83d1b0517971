/**
 * The FT60x chip configuration (src/configuration/mod.rs): the raw configuration record read
 * from the driver, decoded into identification, the string-descriptor block, power, pin drive,
 * interrupt latency, FIFO settings and optional features.
 */
module ChipConfigurations {
  import opened Wrappers
  import opened D3xxErrors
  import opened NativeDriver
  import opened StringDescriptors
  import opened PowerConfiguration
  import opened PinDrive
  import opened DataTransfer
  import opened OptionalConfig

  /** The fields of the driver's `FT_60XCONFIGURATION` record that the crate reads. */
  datatype ChipConfigurationRecord = ChipConfigurationRecord(
    vendorId: u16,
    productId: u16,
    stringDescriptors: seq<u8>,
    powerAttributes: bv8,
    powerConsumption: u16,
    msioControl: bv32,
    gpioControl: bv32,
    bInterval: u8,
    fifoClock: u8,
    fifoMode: u8,
    channelConfig: u8,
    optionalFeatureSupport: bv16,
    batteryChargingGpioConfig: bv8)

  /** The record's string block holds three parsable string descriptors. */
  predicate StringBlockParsable(raw: ChipConfigurationRecord)
  {
    |raw.stringDescriptors| == BLOCK_SIZE &&
    PartParsable(raw.stringDescriptors, 0) && PartParsable(raw.stringDescriptors, 1) &&
    PartParsable(raw.stringDescriptors, 2)
  }

  class ChipConfiguration {
    const vid: u16
    const pid: u16
    /** Shared with callers of `string_descriptor_mut`, who may change its strings in place. */
    const stringDescriptor: StringDescriptor
    const powerConfig: PowerConfig
    const pinDriveStrength: PinDriveStrengths
    var interruptLatency: u8
    const dataTransfer: DataTransferConfig
    const optionalFeatures: OptionalFeatures

    constructor Assemble(vid: u16, pid: u16, stringDescriptor: StringDescriptor,
                         powerConfig: PowerConfig, pinDriveStrength: PinDriveStrengths,
                         interruptLatency: u8, dataTransfer: DataTransferConfig,
                         optionalFeatures: OptionalFeatures)
      ensures this.vid == vid && this.pid == pid && this.stringDescriptor == stringDescriptor
      ensures this.powerConfig == powerConfig && this.pinDriveStrength == pinDriveStrength
      ensures this.interruptLatency == interruptLatency && this.dataTransfer == dataTransfer
      ensures this.optionalFeatures == optionalFeatures
    {
      this.vid := vid;
      this.pid := pid;
      this.stringDescriptor := stringDescriptor;
      this.powerConfig := powerConfig;
      this.pinDriveStrength := pinDriveStrength;
      this.interruptLatency := interruptLatency;
      this.dataTransfer := dataTransfer;
      this.optionalFeatures := optionalFeatures;
    }

    /**
     * `ChipConfiguration::new`: reads the record from the driver (`status` and `raw` are the
     * driver's answer) and decodes it. A driver error is returned as is; otherwise the only
     * failure is an invalid FIFO byte, reported as `OtherError`, since every pin-drive field
     * decodes. The string block must parse (the source panics otherwise).
     */
    static method New(driver: Driver, handle: Handle, status: Status, raw: ChipConfigurationRecord)
      returns (r: D3xxResult<ChipConfiguration>)
      requires status == 0 ==> StringBlockParsable(raw)
      modifies driver
      ensures driver.calls == old(driver.calls) + [GetChipConfiguration(handle)]
      ensures status != 0 ==> r == Err(FromStatus(status))
      ensures status == 0 ==>
        (r.Ok? <==> raw.fifoClock < 2 && raw.fifoMode < 2 && raw.channelConfig < 5)
      ensures status == 0 && r.Err? ==> r.error == OtherError
      ensures r.Ok? ==>
        var c := r.value;
        fresh(c) && fresh(c.stringDescriptor) &&
        c.vid == raw.vendorId && c.pid == raw.productId &&
        c.interruptLatency == raw.bInterval &&
        c.stringDescriptor.manufacturer == DecodePart(raw.stringDescriptors, 0) &&
        c.stringDescriptor.product == DecodePart(raw.stringDescriptors, 1) &&
        c.stringDescriptor.serialNumber == DecodePart(raw.stringDescriptors, 2) &&
        c.powerConfig == PowerConfig(raw.powerAttributes, raw.powerConsumption) &&
        Ok(c.pinDriveStrength) == NewPinDriveStrengths(raw.msioControl, raw.gpioControl) &&
        Ok(c.dataTransfer) == NewDataTransferConfig(raw.fifoClock, raw.fifoMode, raw.channelConfig) &&
        c.optionalFeatures == NewOptionalFeatures(raw.optionalFeatureSupport, raw.batteryChargingGpioConfig)
    {
      driver.Issue(GetChipConfiguration(handle));
      var res := TryD3xx(status);
      if res.Err? {
        return Err(res.error);
      }
      var strings := new StringDescriptor.New(raw.stringDescriptors);
      var power := PowerConfig(raw.powerAttributes, raw.powerConsumption);
      // The `?` on the pin-drive decoding never returns: every 2-bit field decodes.
      NewNeverFails(raw.msioControl, raw.gpioControl);
      var pins := NewPinDriveStrengths(raw.msioControl, raw.gpioControl).value;
      NewDataTransferSpec(raw.fifoClock, raw.fifoMode, raw.channelConfig);
      var fifo := NewDataTransferConfig(raw.fifoClock, raw.fifoMode, raw.channelConfig);
      if fifo.Err? {
        return Err(fifo.error);
      }
      var optional := NewOptionalFeatures(raw.optionalFeatureSupport, raw.batteryChargingGpioConfig);
      var c := new ChipConfiguration.Assemble(raw.vendorId, raw.productId, strings, power,
                                              pins, raw.bInterval, fifo.value, optional);
      r := Ok(c);
    }

    /** `set_interrupt_latency`: the latency must be 1..16 (the source asserts it); nothing else changes. */
    method SetInterruptLatency(latency: u8)
      requires 1 <= latency <= 16
      modifies this
      ensures interruptLatency == latency
      ensures unchanged(stringDescriptor)
    {
      interruptLatency := latency;
    }
  }
}
