/**
 * Pin drive strengths of the chip configuration (src/configuration/pin_drive.rs): four 2-bit
 * fields, FIFO data and clock in the MSIO control word, GPIO0 and GPIO1 in the GPIO control
 * word, each naming one of four drive strengths.
 */
module PinDrive {
  import opened Wrappers
  import opened D3xxErrors

  datatype DriveStrength = Ohm50 | Ohm35 | Ohm25 | Ohm18

  /** The encoding of a drive strength (`#[repr(u8)]`, counting from 0). */
  function DriveStrengthValue(d: DriveStrength): bv32
  {
    match d
    case Ohm50 => 0
    case Ohm35 => 1
    case Ohm25 => 2
    case Ohm18 => 3
  }

  /** `DriveStrength::try_from`. */
  function DriveStrengthFrom(v: bv32): (r: Option<DriveStrength>)
    ensures r.Some? <==> v < 4
    ensures r.Some? ==> DriveStrengthValue(r.value) == v
  {
    match v
    case 0 => Some(Ohm50)
    case 1 => Some(Ohm35)
    case 2 => Some(Ohm25)
    case 3 => Some(Ohm18)
    case _ => None
  }

  lemma DriveStrengthRoundTrip(d: DriveStrength)
    ensures DriveStrengthFrom(DriveStrengthValue(d)) == Some(d)
  {
  }

  datatype PinDriveStrengths = PinDriveStrengths(
    fifoData: DriveStrength, fifoClock: DriveStrength, gpio0: DriveStrength, gpio1: DriveStrength)

  /** The two bits of `w` from bit `shift` on. */
  function Field(w: bv32, shift: bv32): bv32
    requires shift < 31
  {
    (w >> shift) & 0x3
  }

  /** One field decoded; a value that names no strength is `OtherError`. */
  function DecodeField(w: bv32, shift: bv32): D3xxResult<DriveStrength>
    requires shift < 31
  {
    match DriveStrengthFrom(Field(w, shift))
    case None => Err(OtherError)
    case Some(d) => Ok(d)
  }

  /**
   * `PinDriveStrengths::new`: FIFO data from MSIO bits 0..1, FIFO clock from MSIO bits 4..5,
   * GPIO0 from GPIO bits 8..9 and GPIO1 from GPIO bits 10..11, stopping at the first field
   * that does not decode. (The source narrows each masked field to `u8` first; the value is
   * below 4, so nothing is lost.)
   */
  function NewPinDriveStrengths(msio: bv32, gpio: bv32): D3xxResult<PinDriveStrengths>
  {
    match DecodeField(msio, 0)
    case Err(e) => Err(e)
    case Ok(fifoData) =>
      match DecodeField(msio, 4)
      case Err(e) => Err(e)
      case Ok(fifoClock) =>
        match DecodeField(gpio, 8)
        case Err(e) => Err(e)
        case Ok(gpio0) =>
          match DecodeField(gpio, 10)
          case Err(e) => Err(e)
          case Ok(gpio1) => Ok(PinDriveStrengths(fifoData, fifoClock, gpio0, gpio1))
  }

  /** A masked 2-bit field always names a strength. */
  lemma FieldDecodes(w: bv32, shift: bv32)
    requires shift < 31
    ensures Field(w, shift) < 4
    ensures DecodeField(w, shift).Ok? && DriveStrengthValue(DecodeField(w, shift).value) == Field(w, shift)
  {
  }

  /**
   * Decoding never fails, and each strength's encoding is its field: MSIO bits 0..1 and
   * 4..5, GPIO bits 8..9 and 10..11.
   */
  lemma NewNeverFails(msio: bv32, gpio: bv32)
    ensures NewPinDriveStrengths(msio, gpio).Ok?
    ensures var s := NewPinDriveStrengths(msio, gpio).value;
      DriveStrengthValue(s.fifoData) == msio & 0x3 &&
      DriveStrengthValue(s.fifoClock) == (msio >> 4) & 0x3 &&
      DriveStrengthValue(s.gpio0) == (gpio >> 8) & 0x3 &&
      DriveStrengthValue(s.gpio1) == (gpio >> 10) & 0x3
  {
    FieldDecodes(msio, 0);
    FieldDecodes(msio, 4);
    FieldDecodes(gpio, 8);
    FieldDecodes(gpio, 10);
  }

  /** Two strengths are equal exactly when their encodings are. */
  lemma ValueInjective(a: DriveStrength, b: DriveStrength)
    ensures DriveStrengthValue(a) == DriveStrengthValue(b) <==> a == b
  {
  }

  /**
   * The result depends on the four fields and on nothing else: two pairs of control words
   * decode alike exactly when they agree on MSIO bits 0..1 and 4..5 and GPIO bits 8..11.
   */
  lemma OnlyFieldsMatter(msio: bv32, gpio: bv32, msio': bv32, gpio': bv32)
    ensures NewPinDriveStrengths(msio, gpio) == NewPinDriveStrengths(msio', gpio') <==>
      msio & 0x33 == msio' & 0x33 && gpio & 0xF00 == gpio' & 0xF00
  {
    NewNeverFails(msio, gpio);
    NewNeverFails(msio', gpio');
    var s, s' := NewPinDriveStrengths(msio, gpio).value, NewPinDriveStrengths(msio', gpio').value;
    ValueInjective(s.fifoData, s'.fifoData);
    ValueInjective(s.fifoClock, s'.fifoClock);
    ValueInjective(s.gpio0, s'.gpio0);
    ValueInjective(s.gpio1, s'.gpio1);
    assert msio & 0x33 == msio' & 0x33 <==>
      msio & 0x3 == msio' & 0x3 && (msio >> 4) & 0x3 == (msio' >> 4) & 0x3;
    assert gpio & 0xF00 == gpio' & 0xF00 <==>
      (gpio >> 8) & 0x3 == (gpio' >> 8) & 0x3 && (gpio >> 10) & 0x3 == (gpio' >> 10) & 0x3;
  }
}
