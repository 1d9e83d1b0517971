/** The driver's status codes and the closed error taxonomy they translate to (src/error.rs). */
module D3xxErrors {
  import opened Wrappers

  /** One variant per failure status of the driver, plus a catch-all for unknown codes. */
  datatype D3xxError =
    | InvalidHandle
    | DeviceNotFound
    | DeviceNotOpened
    | IoError
    | InsufficientResources
    | InvalidParameter
    | InvalidBaudRate
    | DeviceNotOpenedForErase
    | DeviceNotOpenedForWrite
    | FailedToWriteDevice
    | EepromReadFailed
    | EepromWriteFailed
    | EepromEraseFailed
    | EepromNotPresent
    | EepromNotProgrammed
    | InvalidArgs
    | NotSupported
    | NoMoreItems
    | Timeout
    | OperationAborted
    | ReservedPipe
    | InvalidControlRequestDirection
    | InvalidControlRequestType
    | IoPending
    | IoIncomplete
    | HandleEof
    | Busy
    | NoSystemResources
    | DeviceListNotReady
    | DeviceNotConnected
    | IncorrectDevicePath
    | OtherError

  /** A status word returned by the driver; 0 means success. */
  type Status = u32

  /** The crate's result type: a value or a D3XX error. */
  type D3xxResult<T> = Result<T, D3xxError>

  /** The discriminant of a variant (`#[repr(u8)]`, counting up from 1). */
  function Code(e: D3xxError): (c: u8)
    ensures 1 <= c <= 32
    ensures c == 32 <==> e == OtherError
  {
    match e
    case InvalidHandle => 1
    case DeviceNotFound => 2
    case DeviceNotOpened => 3
    case IoError => 4
    case InsufficientResources => 5
    case InvalidParameter => 6
    case InvalidBaudRate => 7
    case DeviceNotOpenedForErase => 8
    case DeviceNotOpenedForWrite => 9
    case FailedToWriteDevice => 10
    case EepromReadFailed => 11
    case EepromWriteFailed => 12
    case EepromEraseFailed => 13
    case EepromNotPresent => 14
    case EepromNotProgrammed => 15
    case InvalidArgs => 16
    case NotSupported => 17
    case NoMoreItems => 18
    case Timeout => 19
    case OperationAborted => 20
    case ReservedPipe => 21
    case InvalidControlRequestDirection => 22
    case InvalidControlRequestType => 23
    case IoPending => 24
    case IoIncomplete => 25
    case HandleEof => 26
    case Busy => 27
    case NoSystemResources => 28
    case DeviceListNotReady => 29
    case DeviceNotConnected => 30
    case IncorrectDevicePath => 31
    case OtherError => 32
  }

  /**
   * Translates a failure status into its variant. Status 0 is success, which the
   * source refuses with a panic, so it is excluded here.
   */
  function FromStatus(status: Status): (e: D3xxError)
    requires status != 0
    ensures status >= 32 <==> e == OtherError
  {
    match status
    case 1 => InvalidHandle
    case 2 => DeviceNotFound
    case 3 => DeviceNotOpened
    case 4 => IoError
    case 5 => InsufficientResources
    case 6 => InvalidParameter
    case 7 => InvalidBaudRate
    case 8 => DeviceNotOpenedForErase
    case 9 => DeviceNotOpenedForWrite
    case 10 => FailedToWriteDevice
    case 11 => EepromReadFailed
    case 12 => EepromWriteFailed
    case 13 => EepromEraseFailed
    case 14 => EepromNotPresent
    case 15 => EepromNotProgrammed
    case 16 => InvalidArgs
    case 17 => NotSupported
    case 18 => NoMoreItems
    case 19 => Timeout
    case 20 => OperationAborted
    case 21 => ReservedPipe
    case 22 => InvalidControlRequestDirection
    case 23 => InvalidControlRequestType
    case 24 => IoPending
    case 25 => IoIncomplete
    case 26 => HandleEof
    case 27 => Busy
    case 28 => NoSystemResources
    case 29 => DeviceListNotReady
    case 30 => DeviceNotConnected
    case 31 => IncorrectDevicePath
    case _ => OtherError
  }

  /** The `try_d3xx!` macro: status 0 is `Ok(())`, any other status the error it names. */
  function TryD3xx(status: Status): (r: D3xxResult<Unit>)
    ensures r.Ok? <==> status == 0
    ensures r.Err? ==> r.error == FromStatus(status)
  {
    if status == 0 then Ok(Unit) else Err(FromStatus(status))
  }

  /** Every variant survives the trip through its code and back. */
  lemma CodeRoundTrip(e: D3xxError)
    ensures FromStatus(Code(e)) == e
  {
  }

  /** Distinct variants have distinct codes. */
  lemma CodeInjective(e1: D3xxError, e2: D3xxError)
    requires Code(e1) == Code(e2)
    ensures e1 == e2
  {
    CodeRoundTrip(e1);
    CodeRoundTrip(e2);
  }

  /** Each code 1..=32 names exactly one variant, and that variant's code is the code. */
  lemma StatusRoundTrip(status: Status)
    requires 1 <= status <= 32
    ensures Code(FromStatus(status)) == status
  {
  }

  /** The macro's error for a known failure code carries that code back. */
  lemma TryD3xxCode(status: Status)
    requires 1 <= status <= 31
    ensures TryD3xx(status).Err? && Code(TryD3xx(status).error) == status
  {
  }

  /** The table of the source's unit test: code 32 and every larger code are the catch-all. */
  lemma UnknownCodesAreOther(status: Status)
    requires status >= 32
    ensures TryD3xx(status) == Err(OtherError) && Code(OtherError) == 32
  {
  }
}
