/**
 * The vendor driver seen from this crate: the native calls the crate issues, and an object
 * that records them in order. The driver's answers (status words and out-parameters) are not
 * computed here; every operation that calls the driver takes them as inputs.
 */
module NativeDriver {
  import opened Wrappers

  /** An opaque native handle; 0 is the null handle. */
  type Handle = nat

  /** Identifies one native completion ("overlapped") record. */
  type RecordId = nat

  /** One native call, with the arguments that matter to the crate's logic. */
  datatype Call =
    | CreateBySerial(serial: string)
    | Close(handle: Handle)
    | WritePipe(handle: Handle, pipe: bv8, data: seq<u8>, completion: Option<RecordId>)
    | ReadPipe(handle: Handle, pipe: bv8, length: nat, completion: Option<RecordId>)
    | AbortPipe(handle: Handle, pipe: bv8)
    | ClearStreamPipes(handle: Handle)
    | SetStreamPipe(handle: Handle, pipe: bv8, streamSize: u32)
    | GetPipeTimeout(handle: Handle, pipe: bv8)
    | SetPipeTimeout(handle: Handle, pipe: bv8, millis: u32)
    | GetVidPid(handle: Handle)
    | InitializeOverlapped(handle: Handle, record: RecordId)
    | GetOverlappedResult(handle: Handle, record: RecordId, wait: bool)
    | ReleaseOverlapped(handle: Handle, record: RecordId)
    | SetNotificationCallback(handle: Handle, context: nat)
    | ClearNotificationCallback(handle: Handle)
    | CreateDeviceInfoList
    | GetDeviceInfoList
    | GetLibraryVersion
    | EnableGpio(handle: Handle, mask: bv32, value: bv32)
    | SetGpioPull(handle: Handle, mask: bv32, value: bv32)
    | WriteGpio(handle: Handle, mask: bv32, value: bv32)
    | ReadGpio(handle: Handle)
    | GetChipConfiguration(handle: Handle)

  /** The driver library of the process, as the log of calls it has received. */
  class Driver {
    ghost var calls: seq<Call>

    constructor ()
      ensures calls == []
    {
      calls := [];
    }

    /** Records that `c` was issued. */
    method Issue(c: Call)
      modifies this
      ensures calls == old(calls) + [c]
    {
      calls := calls + [c];
    }
  }

}
