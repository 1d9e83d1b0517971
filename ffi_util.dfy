/**
 * The thin wrappers around the driver's pipe transfer entry points (src/ffi/util.rs). Each one
 * is a single native call whose only state is a local out-parameter, so each is a function of
 * the driver's answer: it yields the call it issues and the result it returns.
 */
module FfiUtil {
  import opened Wrappers
  import opened D3xxErrors
  import opened NativeDriver

  /** The call a wrapper issues together with what the wrapper returns. */
  datatype Transfer<T> = Transfer(call: Call, result: D3xxResult<T>)

  /**
   * `ignore_io_pending`: an asynchronous request that reports "pending" has been queued, so that
   * one error becomes success; every other result, `IoIncomplete` included, is passed through.
   */
  function IgnoreIoPending(r: D3xxResult<Unit>): (filtered: D3xxResult<Unit>)
    ensures r == Err(IoPending) ==> filtered == Ok(Unit)
    ensures r != Err(IoPending) ==> filtered == r
    ensures filtered != Err(IoPending)
  {
    match r
    case Err(IoPending) => Ok(Unit)
    case _ => r
  }

  lemma IgnoreIoPendingIdempotent(r: D3xxResult<Unit>)
    ensures IgnoreIoPending(IgnoreIoPending(r)) == IgnoreIoPending(r)
  {
  }

  /** Synchronous `write_pipe`: no completion record; on status 0 the driver's byte count. */
  function WritePipe(handle: Handle, pipe: bv8, data: seq<u8>, status: Status, written: u32)
    : (t: Transfer<nat>)
    requires |data| <= ULONG_MAX
    ensures t.call == Call.WritePipe(handle, pipe, data, None)
    ensures t.result.Ok? <==> status == 0
    ensures t.result.Ok? ==> t.result.value == written
    ensures t.result.Err? ==> t.result.error == FromStatus(status)
  {
    var call := Call.WritePipe(handle, pipe, data, None);
    match TryD3xx(status)
    case Err(e) => Transfer(call, Err(e))
    case Ok(_) => Transfer(call, Ok(written))
  }

  /** Synchronous `read_pipe` into a buffer of `capacity` bytes. */
  function ReadPipe(handle: Handle, pipe: bv8, capacity: nat, status: Status, read: u32)
    : (t: Transfer<nat>)
    requires capacity <= ULONG_MAX
    ensures t.call == Call.ReadPipe(handle, pipe, capacity, None)
    ensures t.result.Ok? <==> status == 0
    ensures t.result.Ok? ==> t.result.value == read
    ensures t.result.Err? ==> t.result.error == FromStatus(status)
  {
    var call := Call.ReadPipe(handle, pipe, capacity, None);
    match TryD3xx(status)
    case Err(e) => Transfer(call, Err(e))
    case Ok(_) => Transfer(call, Ok(read))
  }

  /**
   * `write_pipe_async`: the caller's completion record goes with the request, no byte count is
   * returned, and a "pending" status (code 24) is success.
   */
  function WritePipeAsync(handle: Handle, pipe: bv8, data: seq<u8>, record: RecordId, status: Status)
    : (t: Transfer<Unit>)
    requires |data| <= ULONG_MAX
    ensures t.call == Call.WritePipe(handle, pipe, data, Some(record))
    ensures t.result.Ok? <==> status == 0 || status == 24
    ensures t.result.Err? ==> t.result.error == FromStatus(status)
  {
    Transfer(Call.WritePipe(handle, pipe, data, Some(record)), IgnoreIoPending(TryD3xx(status)))
  }

  /** `read_pipe_async`, the reading counterpart of `WritePipeAsync`. */
  function ReadPipeAsync(handle: Handle, pipe: bv8, capacity: nat, record: RecordId, status: Status)
    : (t: Transfer<Unit>)
    requires capacity <= ULONG_MAX
    ensures t.call == Call.ReadPipe(handle, pipe, capacity, Some(record))
    ensures t.result.Ok? <==> status == 0 || status == 24
    ensures t.result.Err? ==> t.result.error == FromStatus(status)
  {
    Transfer(Call.ReadPipe(handle, pipe, capacity, Some(record)), IgnoreIoPending(TryD3xx(status)))
  }

  /** "Incomplete" is not filtered: an asynchronous request reporting it has failed. */
  lemma AsyncIncompleteIsError(handle: Handle, pipe: bv8, capacity: nat, record: RecordId)
    requires capacity <= ULONG_MAX
    ensures ReadPipeAsync(handle, pipe, capacity, record, 25).result == Err(IoIncomplete)
  {
  }
}
