/**
 * GPIO access (src/gpio.rs): every request names its pin with a one-bit mask and carries the
 * pin's new setting shifted into place; reading extracts the pin's bit from the register.
 */
module GpioAccess {
  import opened Wrappers
  import opened D3xxErrors
  import opened NativeDriver
  import opened FfiUtil

  /** `GpioPin`, `Direction`, `Level` and `PullMode`. */
  datatype GpioPin = Pin0 | Pin1
  datatype Direction = Input | Output
  datatype Level = Low | High
  datatype PullMode = PullDown | HighImpedance | PullUp

  function PinValue(p: GpioPin): bv8
  {
    match p
    case Pin0 => 0
    case Pin1 => 1
  }

  function DirectionValue(d: Direction): bv8
  {
    match d
    case Input => 0
    case Output => 1
  }

  function LevelValue(l: Level): bv8
  {
    match l
    case Low => 0
    case High => 1
  }

  function PullValue(m: PullMode): bv8
  {
    match m
    case PullDown => 0
    case HighImpedance => 1
    case PullUp => 2
  }

  /** `Level::try_from(u8)`: only 0 and 1 name a level. */
  function LevelFrom(b: bv8): (r: Option<Level>)
    ensures r.Some? <==> b < 2
    ensures r.Some? ==> LevelValue(r.value) == b
  {
    match b
    case 0 => Some(Low)
    case 1 => Some(High)
    case _ => None
  }

  /** Each encoding is injective, and a level survives encoding and decoding. */
  lemma Encodings(l: Level, p: GpioPin, q: GpioPin, d: Direction, e: Direction,
                  m: PullMode, n: PullMode)
    ensures LevelFrom(LevelValue(l)) == Some(l)
    ensures PinValue(p) == PinValue(q) ==> p == q
    ensures DirectionValue(d) == DirectionValue(e) ==> d == e
    ensures PullValue(m) == PullValue(n) ==> m == n
  {
  }

  /** The mask of a pin: `1 << pin`. */
  function Mask(p: GpioPin): (mask: bv32)
    ensures mask == 1 || mask == 2
  {
    1 << PinValue(p)
  }

  /** A setting shifted to the pin's position in 8 bits, then widened to 32 bits. */
  function Shifted(value: bv8, p: GpioPin): bv32
    requires value < 0x80
  {
    (value << PinValue(p)) as bv32
  }

  /** `enable`: the direction bit placed at the pin. */
  function Enable(handle: Handle, p: GpioPin, d: Direction, status: Status): (t: Transfer<Unit>)
    ensures t.call.EnableGpio? && t.call.handle == handle && t.call.mask == Mask(p)
    ensures t.call.value & !Mask(p) == 0
    ensures (t.call.value == Mask(p)) <==> d == Output
    ensures t.result == TryD3xx(status)
  {
    Transfer(EnableGpio(handle, Mask(p), Shifted(DirectionValue(d), p)), TryD3xx(status))
  }

  /**
   * `set_pull`: the pull code placed at the pin. The code needs two bits, so a pull-up sets the
   * bit above the pin, outside the mask.
   */
  function SetPull(handle: Handle, p: GpioPin, m: PullMode, status: Status): (t: Transfer<Unit>)
    ensures t.call.SetGpioPull? && t.call.handle == handle && t.call.mask == Mask(p)
    ensures t.call.value & !Mask(p) == 0 <==> m != PullUp
    ensures t.call.value == (PullValue(m) as bv32) << PinValue(p)
    ensures t.result == TryD3xx(status)
  {
    Transfer(SetGpioPull(handle, Mask(p), Shifted(PullValue(m), p)), TryD3xx(status))
  }

  /** `write`: the level bit placed at the pin. */
  function Write(handle: Handle, p: GpioPin, l: Level, status: Status): (t: Transfer<Unit>)
    ensures t.call.WriteGpio? && t.call.handle == handle && t.call.mask == Mask(p)
    ensures t.call.value & !Mask(p) == 0
    ensures (t.call.value == Mask(p)) <==> l == High
    ensures t.result == TryD3xx(status)
  {
    Transfer(WriteGpio(handle, Mask(p), Shifted(LevelValue(l), p)), TryD3xx(status))
  }

  /**
   * `read`: the pin's bit of the register. The decoding of that bit cannot fail, because it
   * is 0 or 1.
   */
  function Read(handle: Handle, p: GpioPin, status: Status, register: bv32): (t: Transfer<Level>)
    ensures t.call == ReadGpio(handle)
    ensures t.result.Ok? <==> status == 0
    ensures t.result.Ok? ==> (t.result.value == High <==> register & Mask(p) != 0)
    ensures t.result.Err? ==> t.result.error == FromStatus(status)
  {
    var res := TryD3xx(status);
    if res.Err? then Transfer(ReadGpio(handle), Err(res.error))
    else
      var bit := ((register >> PinValue(p)) & 1) as bv8;
      Transfer(ReadGpio(handle), Ok(LevelFrom(bit).value))
  }

  /**
   * A register whose masked bits are those of a write reads back as the level written, on
   * either pin; the other pin's bit does not matter.
   */
  lemma WriteThenRead(handle: Handle, p: GpioPin, l: Level, register: bv32)
    requires register & Mask(p) == Write(handle, p, l, 0).call.value
    ensures Read(handle, p, 0, register).result == Ok(l)
  {
  }
}
