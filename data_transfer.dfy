/**
 * The FIFO part of the chip configuration (src/configuration/data_transfer.rs): clock speed,
 * FIFO mode and channel configuration, each a byte naming one variant of an enumeration.
 */
module DataTransfer {
  import opened Wrappers
  import opened D3xxErrors

  datatype FifoClock = Clock100Mhz | Clock66Mhz
  datatype FifoMode = Mode245 | Mode600
  /** How many pipe pairs the chip exposes: four, two, one, or a single out or in pipe. */
  datatype ChannelConfiguration = Four | Two | One | OneOutPipe | OneInPipe

  function FifoClockValue(c: FifoClock): u8
  {
    match c
    case Clock100Mhz => 0
    case Clock66Mhz => 1
  }

  function FifoClockFrom(v: u8): (r: Option<FifoClock>)
    ensures r.Some? <==> v < 2
    ensures r.Some? ==> FifoClockValue(r.value) == v
  {
    match v
    case 0 => Some(Clock100Mhz)
    case 1 => Some(Clock66Mhz)
    case _ => None
  }

  function FifoModeValue(m: FifoMode): u8
  {
    match m
    case Mode245 => 0
    case Mode600 => 1
  }

  function FifoModeFrom(v: u8): (r: Option<FifoMode>)
    ensures r.Some? <==> v < 2
    ensures r.Some? ==> FifoModeValue(r.value) == v
  {
    match v
    case 0 => Some(Mode245)
    case 1 => Some(Mode600)
    case _ => None
  }

  function ChannelValue(c: ChannelConfiguration): u8
  {
    match c
    case Four => 0
    case Two => 1
    case One => 2
    case OneOutPipe => 3
    case OneInPipe => 4
  }

  function ChannelFrom(v: u8): (r: Option<ChannelConfiguration>)
    ensures r.Some? <==> v < 5
    ensures r.Some? ==> ChannelValue(r.value) == v
  {
    match v
    case 0 => Some(Four)
    case 1 => Some(Two)
    case 2 => Some(One)
    case 3 => Some(OneOutPipe)
    case 4 => Some(OneInPipe)
    case _ => None
  }

  /** The three decoded settings; the getters of the source are the field selectors. */
  datatype DataTransferConfig = DataTransferConfig(
    fifoClock: FifoClock, fifoMode: FifoMode, channelConfig: ChannelConfiguration)

  /** `DataTransferConfig::new`: clock, then mode, then channel; the first failure is `OtherError`. */
  function NewDataTransferConfig(fifoClock: u8, fifoMode: u8, channelConfig: u8)
    : D3xxResult<DataTransferConfig>
  {
    match FifoClockFrom(fifoClock)
    case None => Err(OtherError)
    case Some(clock) =>
      match FifoModeFrom(fifoMode)
      case None => Err(OtherError)
      case Some(mode) =>
        match ChannelFrom(channelConfig)
        case None => Err(OtherError)
        case Some(channel) => Ok(DataTransferConfig(clock, mode, channel))
  }

  /**
   * Decoding succeeds exactly when the clock and mode are 0 or 1 and the channel 0..4; every
   * failure is `OtherError`; a success encodes back to the three bytes.
   */
  lemma NewDataTransferSpec(fifoClock: u8, fifoMode: u8, channelConfig: u8)
    ensures NewDataTransferConfig(fifoClock, fifoMode, channelConfig).Ok? <==>
      fifoClock < 2 && fifoMode < 2 && channelConfig < 5
    ensures NewDataTransferConfig(fifoClock, fifoMode, channelConfig).Err? ==>
      NewDataTransferConfig(fifoClock, fifoMode, channelConfig).error == OtherError
    ensures NewDataTransferConfig(fifoClock, fifoMode, channelConfig).Ok? ==>
      var c := NewDataTransferConfig(fifoClock, fifoMode, channelConfig).value;
      FifoClockValue(c.fifoClock) == fifoClock && FifoModeValue(c.fifoMode) == fifoMode &&
      ChannelValue(c.channelConfig) == channelConfig
  {
  }

  /** Every configuration is decoded from its own encoding. */
  lemma DataTransferRoundTrip(c: DataTransferConfig)
    ensures NewDataTransferConfig(FifoClockValue(c.fifoClock), FifoModeValue(c.fifoMode),
                                  ChannelValue(c.channelConfig)) == Ok(c)
  {
  }
}
