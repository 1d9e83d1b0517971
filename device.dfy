/**
 * An open device session (src/device.rs): it owns a native handle, performs pipe I/O with the
 * abort-on-error discipline, configures stream pipes and pipe timeouts, and closes the handle
 * when dropped.
 */
module Devices {
  import opened Wrappers
  import opened D3xxErrors
  import opened NativeDriver
  import opened Pipes
  import opened FfiUtil
  import opened OverlappedIo

  /** `std::time::Duration`, kept as a whole number of nanoseconds. */
  datatype Duration = Duration(nanos: nat)

  /** `Duration::as_millis`: whole milliseconds, any sub-millisecond part dropped. */
  function AsMillis(d: Duration): nat
  {
    d.nanos / 1_000_000
  }

  /** `Duration::from_millis`. */
  function FromMillis(ms: nat): Duration
  {
    Duration(ms * 1_000_000)
  }

  /**
   * A timeout read back in milliseconds converts to the same number of milliseconds, and a
   * duration only loses its sub-millisecond part on the way to the driver.
   */
  lemma MillisRoundTrip(ms: nat, extraNanos: nat)
    requires extraNanos < 1_000_000
    ensures AsMillis(FromMillis(ms)) == ms
    ensures AsMillis(Duration(FromMillis(ms).nanos + extraNanos)) == ms
  {
    var n := ms * 1_000_000 + extraNanos;
    assert n / 1_000_000 == ms by {
      assert ms * 1_000_000 <= n < (ms + 1) * 1_000_000;
    }
  }

  /** What `set_stream_pipes` produced: the calls issued and the result returned. */
  datatype Outcome = Outcome(calls: seq<Call>, result: D3xxResult<Unit>)

  /** One entry of a stream-pipe set, as its iteration yields it. */
  datatype StreamEntry = StreamEntry(pipe: Pipe, size: nat)

  /**
   * `entries` is an iteration of `pipes`: each configured pipe exactly once, with its size, in
   * some order (the hash map's order is unspecified).
   */
  predicate IsIterationOf(entries: seq<StreamEntry>, pipes: StreamPipes)
  {
    |entries| == |pipes.pipes| &&
    (forall i, j :: 0 <= i < j < |entries| ==> entries[i].pipe != entries[j].pipe) &&
    (forall i :: 0 <= i < |entries| ==>
      entries[i].pipe in pipes.pipes && pipes.pipes[entries[i].pipe] == entries[i].size)
  }

  /** The entry is configured without error: its size fits the native width and the call succeeds. */
  predicate EntrySucceeds(entries: seq<StreamEntry>, statuses: seq<Status>, i: nat)
    requires |statuses| == |entries| && i < |entries|
  {
    entries[i].size <= ULONG_MAX && statuses[i] == 0
  }

  /** The sizes of the first `n` entries fit the native 32-bit width. */
  predicate SizesFit(entries: seq<StreamEntry>, n: nat)
    requires n <= |entries|
  {
    forall i :: 0 <= i < n ==> entries[i].size <= ULONG_MAX
  }

  /** The index of the first entry that fails, or the number of entries when none does. */
  function FirstFailure(entries: seq<StreamEntry>, statuses: seq<Status>): (k: nat)
    requires |statuses| == |entries|
    ensures k <= |entries|
    ensures forall i :: 0 <= i < k ==> EntrySucceeds(entries, statuses, i)
    ensures k < |entries| ==> !EntrySucceeds(entries, statuses, k)
    ensures SizesFit(entries, k)
  {
    if entries == [] || !EntrySucceeds(entries, statuses, 0) then 0
    else
      var k := FirstFailure(entries[1..], statuses[1..]);
      assert forall i :: 0 < i <= k ==>
        EntrySucceeds(entries, statuses, i) == EntrySucceeds(entries[1..], statuses[1..], i - 1);
      1 + k
  }

  /** The `FT_SetStreamPipe` call for one entry. */
  function EntryCall(handle: Handle, e: StreamEntry): Call
    requires e.size <= ULONG_MAX
  {
    SetStreamPipe(handle, PipeByte(e.pipe), e.size)
  }

  /** The calls for the first `n` entries, in iteration order. */
  function SetCalls(handle: Handle, entries: seq<StreamEntry>, n: nat): (calls: seq<Call>)
    requires n <= |entries| && SizesFit(entries, n)
    ensures |calls| == n
  {
    if n == 0 then []
    else SetCalls(handle, entries, n - 1) + [EntryCall(handle, entries[n - 1])]
  }

  /** The `i`th call is the `i`th entry's. */
  lemma {:induction false} SetCallsAt(handle: Handle, entries: seq<StreamEntry>, n: nat, i: nat)
    requires n <= |entries| && SizesFit(entries, n) && i < n
    ensures SetCalls(handle, entries, n)[i] == EntryCall(handle, entries[i])
  {
    if i < n - 1 {
      SetCallsAt(handle, entries, n - 1, i);
    }
  }

  /**
   * What the per-entry loop of `set_stream_pipes` does: it issues the calls of the entries
   * before the first failing one, plus that entry's own call when its size fit, and returns
   * `InvalidArgs` for a size beyond the native width, the driver's error for a failed call, or
   * success when no entry fails.
   */
  function StreamOutcome(handle: Handle, entries: seq<StreamEntry>, statuses: seq<Status>)
    : (o: Outcome)
    requires |statuses| == |entries|
    ensures o.result.Ok? <==> forall i :: 0 <= i < |entries| ==> EntrySucceeds(entries, statuses, i)
    ensures o.result.Ok? ==> |o.calls| == |entries|
  {
    var k := FirstFailure(entries, statuses);
    if k == |entries| then Outcome(SetCalls(handle, entries, k), Ok(Unit))
    else if entries[k].size > ULONG_MAX then Outcome(SetCalls(handle, entries, k), Err(InvalidArgs))
    else Outcome(SetCalls(handle, entries, k + 1), Err(FromStatus(statuses[k])))
  }

  /** The loop as the source writes it, one entry at a time. */
  function StreamLoop(handle: Handle, entries: seq<StreamEntry>, statuses: seq<Status>): Outcome
    requires |statuses| == |entries|
  {
    if entries == [] then Outcome([], Ok(Unit))
    else if entries[0].size > ULONG_MAX then Outcome([], Err(InvalidArgs))
    else
      var call := EntryCall(handle, entries[0]);
      if statuses[0] != 0 then Outcome([call], Err(FromStatus(statuses[0])))
      else
        var rest := StreamLoop(handle, entries[1..], statuses[1..]);
        Outcome([call] + rest.calls, rest.result)
  }

  /** The calls of the first `n + 1` entries are the head's call followed by those of the tail. */
  lemma SetCallsCons(handle: Handle, entries: seq<StreamEntry>, n: nat)
    requires n < |entries| && SizesFit(entries, n + 1)
    ensures SizesFit(entries[1..], n)
    ensures SetCalls(handle, entries, n + 1) ==
      [EntryCall(handle, entries[0])] + SetCalls(handle, entries[1..], n)
  {
  }

  /**
   * Where the loop stops: when the entries before `i` succeed and entry `i` fails (or there is
   * none), the outcome holds the calls up to `i`, plus entry `i`'s own call when its size fit.
   */
  lemma StreamOutcomeAt(handle: Handle, entries: seq<StreamEntry>, statuses: seq<Status>, i: nat)
    requires |statuses| == |entries| && i <= FirstFailure(entries, statuses)
    requires i < |entries| ==> !EntrySucceeds(entries, statuses, i)
    ensures SizesFit(entries, i)
    ensures i == |entries| ==>
      StreamOutcome(handle, entries, statuses) == Outcome(SetCalls(handle, entries, i), Ok(Unit))
    ensures i < |entries| && entries[i].size > ULONG_MAX ==>
      StreamOutcome(handle, entries, statuses) == Outcome(SetCalls(handle, entries, i), Err(InvalidArgs))
    ensures i < |entries| && entries[i].size <= ULONG_MAX ==>
      SizesFit(entries, i + 1) &&
      StreamOutcome(handle, entries, statuses) ==
        Outcome(SetCalls(handle, entries, i + 1), Err(FromStatus(statuses[i])))
  {
    assert FirstFailure(entries, statuses) == i;
  }

  /** An entry before the first failure succeeds, so the first failure lies beyond it. */
  lemma BeforeFirstFailure(entries: seq<StreamEntry>, statuses: seq<Status>, i: nat)
    requires |statuses| == |entries| && i < |entries| && i <= FirstFailure(entries, statuses)
    requires EntrySucceeds(entries, statuses, i)
    ensures i + 1 <= FirstFailure(entries, statuses) && SizesFit(entries, i + 1)
  {
  }

  /** The entry-by-entry loop and the first-failure description agree on every input. */
  lemma {:induction false} StreamLoopIsOutcome(
    handle: Handle, entries: seq<StreamEntry>, statuses: seq<Status>)
    requires |statuses| == |entries|
    ensures StreamLoop(handle, entries, statuses) == StreamOutcome(handle, entries, statuses)
    decreases |entries|
  {
    if entries == [] {
    } else if !EntrySucceeds(entries, statuses, 0) {
      assert FirstFailure(entries, statuses) == 0;
      if entries[0].size <= ULONG_MAX {
        assert SetCalls(handle, entries, 1) == [EntryCall(handle, entries[0])];
      }
    } else {
      var tail, tailStatuses := entries[1..], statuses[1..];
      StreamLoopIsOutcome(handle, tail, tailStatuses);
      var k := FirstFailure(tail, tailStatuses);
      assert FirstFailure(entries, statuses) == k + 1;
      if k == |tail| || tail[k].size > ULONG_MAX {
        SetCallsCons(handle, entries, k);
      } else {
        SetCallsCons(handle, entries, k + 1);
      }
    }
  }

  /**
   * A pipe is configured at most once: the pipe bytes of the issued calls are pairwise
   * distinct when the entries come from a stream-pipe set.
   */
  lemma StreamCallsDistinct(handle: Handle, pipes: StreamPipes, entries: seq<StreamEntry>,
                            statuses: seq<Status>, i: nat, j: nat)
    requires IsIterationOf(entries, pipes) && |statuses| == |entries|
    requires i < j < |StreamOutcome(handle, entries, statuses).calls|
    ensures var calls := StreamOutcome(handle, entries, statuses).calls;
      calls[i].SetStreamPipe? && calls[j].SetStreamPipe? && calls[i].pipe != calls[j].pipe
  {
    var k := FirstFailure(entries, statuses);
    var n := if k < |entries| && entries[k].size <= ULONG_MAX then k + 1 else k;
    assert StreamOutcome(handle, entries, statuses).calls == SetCalls(handle, entries, n);
    SetCallsAt(handle, entries, n, i);
    SetCallsAt(handle, entries, n, j);
    if PipeByte(entries[i].pipe) == PipeByte(entries[j].pipe) {
      PipeByteInjective(entries[i].pipe, entries[j].pipe);
    }
  }

  /** An open device: the handle it owns and the serial number it was opened with. */
  class Device {
    const driver: Driver
    const handle: Handle
    const serialNumber: string
    /** True until the session is dropped and its handle closed. */
    var open: bool

    constructor Opened(driver: Driver, handle: Handle, serialNumber: string)
      ensures this.driver == driver && this.handle == handle
      ensures this.serialNumber == serialNumber && open
    {
      this.driver := driver;
      this.handle := handle;
      this.serialNumber := serialNumber;
      open := true;
    }

    /**
     * `Device::open`: opens by serial number. A success status with a null handle is
     * `DeviceNotFound`. The serial number must not contain NUL (the C string conversion
     * panics otherwise).
     */
    static method Open(driver: Driver, serialNumber: string, status: Status, created: Handle)
      returns (r: Result<Device, D3xxError>)
      requires '\0' !in serialNumber
      modifies driver
      ensures driver.calls == old(driver.calls) + [CreateBySerial(serialNumber)]
      ensures r.Ok? <==> status == 0 && created != 0
      ensures status != 0 ==> r == Err(FromStatus(status))
      ensures status == 0 && created == 0 ==> r == Err(DeviceNotFound)
      ensures r.Ok? ==> fresh(r.value) && r.value.open && r.value.driver == driver &&
                        r.value.handle == created && r.value.serialNumber == serialNumber
    {
      driver.Issue(CreateBySerial(serialNumber));
      var res := TryD3xx(status);
      if res.Err? {
        r := Err(res.error);
      } else if created == 0 {
        r := Err(DeviceNotFound);
      } else {
        var d := new Device.Opened(driver, created, serialNumber);
        r := Ok(d);
      }
    }

    /** `abort_pipe`: cancels the outstanding transfers of one pipe. */
    method AbortPipe(pipe: Pipe, status: Status) returns (r: D3xxResult<Unit>)
      requires open
      modifies driver
      ensures driver.calls == old(driver.calls) + [Call.AbortPipe(handle, PipeByte(pipe))]
      ensures r == TryD3xx(status)
    {
      driver.Issue(Call.AbortPipe(handle, PipeByte(pipe)));
      r := TryD3xx(status);
    }

    /**
     * `wrap_pipe_io_abort`: a failed transfer is followed by exactly one abort of the same
     * pipe, whose own result is discarded; the transfer's result is returned unchanged.
     */
    method WrapPipeIoAbort<T>(pipe: Pipe, res: D3xxResult<T>, abortStatus: Status)
      returns (r: D3xxResult<T>)
      requires open
      modifies driver
      ensures r == res
      ensures driver.calls == old(driver.calls) +
        (if res.Err? then [Call.AbortPipe(handle, PipeByte(pipe))] else [])
    {
      if res.Err? {
        var _ := AbortPipe(pipe, abortStatus);
      }
      r := res;
    }

    /** `write`: a blocking write; the pipe's direction is not checked. */
    method Write(pipe: Pipe, data: seq<u8>, status: Status, written: u32, abortStatus: Status)
      returns (r: D3xxResult<nat>)
      requires open && |data| <= ULONG_MAX
      modifies driver
      ensures var t := FfiUtil.WritePipe(handle, PipeByte(pipe), data, status, written);
        r == t.result &&
        driver.calls == old(driver.calls) + [t.call] +
          (if r.Err? then [Call.AbortPipe(handle, PipeByte(pipe))] else [])
    {
      var t := FfiUtil.WritePipe(handle, PipeByte(pipe), data, status, written);
      driver.Issue(t.call);
      r := WrapPipeIoAbort(pipe, t.result, abortStatus);
    }

    /** `read`: a blocking read into a buffer of `capacity` bytes; no direction check. */
    method Read(pipe: Pipe, capacity: nat, status: Status, read: u32, abortStatus: Status)
      returns (r: D3xxResult<nat>)
      requires open && capacity <= ULONG_MAX
      modifies driver
      ensures var t := FfiUtil.ReadPipe(handle, PipeByte(pipe), capacity, status, read);
        r == t.result &&
        driver.calls == old(driver.calls) + [t.call] +
          (if r.Err? then [Call.AbortPipe(handle, PipeByte(pipe))] else [])
    {
      var t := FfiUtil.ReadPipe(handle, PipeByte(pipe), capacity, status, read);
      driver.Issue(t.call);
      r := WrapPipeIoAbort(pipe, t.result, abortStatus);
    }

    /**
     * `write_async` up to its `await`: creates the completion record, then issues the request
     * with it. If the record cannot be created nothing else happens. If the request fails the
     * pipe is aborted, the error returned and the record released. Otherwise the live record is
     * handed back: polling it (`Overlapped.Poll`) and dropping it complete the future.
     */
    method WriteAsync(pipe: Pipe, data: seq<u8>, record: RecordId, initStatus: Status,
                      status: Status, abortStatus: Status)
      returns (r: Result<Overlapped, D3xxError>)
      requires open && |data| <= ULONG_MAX
      modifies driver
      ensures initStatus != 0 ==>
        r == Err(FromStatus(initStatus)) &&
        driver.calls == old(driver.calls) + [InitializeOverlapped(handle, record)]
      ensures initStatus == 0 ==>
        var t := WritePipeAsync(handle, PipeByte(pipe), data, record, status);
        if t.result.Err? then
          r == Err(t.result.error) &&
          driver.calls == old(driver.calls) + [InitializeOverlapped(handle, record), t.call,
            Call.AbortPipe(handle, PipeByte(pipe)), ReleaseOverlapped(handle, record)]
        else
          r.Ok? && fresh(r.value) && r.value.live && r.value.driver == driver &&
          r.value.handle == handle && r.value.record == record &&
          driver.calls == old(driver.calls) + [InitializeOverlapped(handle, record), t.call]
    {
      var created := Overlapped.WithHandle(driver, handle, record, initStatus);
      if created.Err? {
        return Err(created.error);
      }
      var overlapped := created.value;
      var t := WritePipeAsync(handle, PipeByte(pipe), data, record, status);
      driver.Issue(t.call);
      var res := WrapPipeIoAbort(pipe, t.result, abortStatus);
      if res.Err? {
        overlapped.Drop();
        return Err(res.error);
      }
      r := Ok(overlapped);
    }

    /** `read_async` up to its `await`; see `WriteAsync`. */
    method ReadAsync(pipe: Pipe, capacity: nat, record: RecordId, initStatus: Status,
                     status: Status, abortStatus: Status)
      returns (r: Result<Overlapped, D3xxError>)
      requires open && capacity <= ULONG_MAX
      modifies driver
      ensures initStatus != 0 ==>
        r == Err(FromStatus(initStatus)) &&
        driver.calls == old(driver.calls) + [InitializeOverlapped(handle, record)]
      ensures initStatus == 0 ==>
        var t := ReadPipeAsync(handle, PipeByte(pipe), capacity, record, status);
        if t.result.Err? then
          r == Err(t.result.error) &&
          driver.calls == old(driver.calls) + [InitializeOverlapped(handle, record), t.call,
            Call.AbortPipe(handle, PipeByte(pipe)), ReleaseOverlapped(handle, record)]
        else
          r.Ok? && fresh(r.value) && r.value.live && r.value.driver == driver &&
          r.value.handle == handle && r.value.record == record &&
          driver.calls == old(driver.calls) + [InitializeOverlapped(handle, record), t.call]
    {
      var created := Overlapped.WithHandle(driver, handle, record, initStatus);
      if created.Err? {
        return Err(created.error);
      }
      var overlapped := created.value;
      var t := ReadPipeAsync(handle, PipeByte(pipe), capacity, record, status);
      driver.Issue(t.call);
      var res := WrapPipeIoAbort(pipe, t.result, abortStatus);
      if res.Err? {
        overlapped.Drop();
        return Err(res.error);
      }
      r := Ok(overlapped);
    }

    /**
     * `set_stream_pipes`: one clear of every pipe first, then one call per entry of `pipes` in
     * the iteration order `entries`, stopping at the first failure.
     */
    method SetStreamPipes(pipes: StreamPipes, entries: seq<StreamEntry>, clearStatus: Status,
                          statuses: seq<Status>)
      returns (r: D3xxResult<Unit>)
      requires open && IsIterationOf(entries, pipes) && |statuses| == |entries|
      modifies driver
      ensures clearStatus != 0 ==>
        r == Err(FromStatus(clearStatus)) &&
        driver.calls == old(driver.calls) + [ClearStreamPipes(handle)]
      ensures clearStatus == 0 ==>
        var o := StreamOutcome(handle, entries, statuses);
        r == o.result && driver.calls == old(driver.calls) + [ClearStreamPipes(handle)] + o.calls
    {
      driver.Issue(ClearStreamPipes(handle));
      if clearStatus != 0 {
        return Err(FromStatus(clearStatus));
      }
      r := ConfigureEntries(entries, statuses);
    }

    /**
     * The per-entry loop of `set_stream_pipes`: one call per entry, stopping at the first
     * failure. (The `try_d3xx!` checks are written out.)
     */
    method ConfigureEntries(entries: seq<StreamEntry>, statuses: seq<Status>)
      returns (r: D3xxResult<Unit>)
      requires |statuses| == |entries|
      modifies driver
      ensures var o := StreamOutcome(handle, entries, statuses);
        r == o.result && driver.calls == old(driver.calls) + o.calls
    {
      ghost var start := driver.calls;
      var i := 0;
      while i < |entries|
        invariant 0 <= i <= |entries|
        invariant i <= FirstFailure(entries, statuses) && SizesFit(entries, i)
        invariant driver.calls == start + SetCalls(handle, entries, i)
      {
        r := ConfigureEntry(entries[i], statuses[i]);
        if r.Err? {
          StreamOutcomeAt(handle, entries, statuses, i);
          return;
        }
        BeforeFirstFailure(entries, statuses, i);
        i := i + 1;
      }
      StreamOutcomeAt(handle, entries, statuses, i);
      r := Ok(Unit);
    }

    /**
     * One entry of that loop: a size beyond the native width is `InvalidArgs` before any call;
     * otherwise the entry's call is issued and its status checked.
     */
    method ConfigureEntry(e: StreamEntry, status: Status) returns (r: D3xxResult<Unit>)
      modifies driver
      ensures e.size > ULONG_MAX ==> r == Err(InvalidArgs) && driver.calls == old(driver.calls)
      ensures e.size <= ULONG_MAX ==>
        driver.calls == old(driver.calls) + [EntryCall(handle, e)] &&
        (status == 0 ==> r == Ok(Unit)) && (status != 0 ==> r == Err(FromStatus(status)))
    {
      if e.size > ULONG_MAX {
        return Err(InvalidArgs);
      }
      driver.Issue(EntryCall(handle, e));
      if status != 0 {
        return Err(FromStatus(status));
      }
      r := Ok(Unit);
    }

    /** `pipe_timeout`: the driver-reported timeout of one pipe, in milliseconds. */
    method PipeTimeout(pipe: Pipe, status: Status, reportedMillis: u32)
      returns (r: D3xxResult<Duration>)
      requires open
      modifies driver
      ensures driver.calls == old(driver.calls) + [GetPipeTimeout(handle, PipeByte(pipe))]
      ensures r.Ok? <==> status == 0
      ensures r.Ok? ==> AsMillis(r.value) == reportedMillis && r.value.nanos % 1_000_000 == 0
      ensures r.Err? ==> r.error == FromStatus(status)
    {
      driver.Issue(GetPipeTimeout(handle, PipeByte(pipe)));
      var res := TryD3xx(status);
      if res.Err? {
        return Err(res.error);
      }
      MillisRoundTrip(reportedMillis, 0);
      r := Ok(FromMillis(reportedMillis));
    }

    /**
     * `set_pipe_timeout`: the whole milliseconds of `timeout` are passed to the driver; a
     * value beyond the native 32-bit width panics, hence the precondition.
     */
    method SetPipeTimeout(pipe: Pipe, timeout: Duration, status: Status)
      returns (r: D3xxResult<Unit>)
      requires open && AsMillis(timeout) <= ULONG_MAX
      modifies driver
      ensures driver.calls == old(driver.calls) +
        [Call.SetPipeTimeout(handle, PipeByte(pipe), AsMillis(timeout))]
      ensures r == TryD3xx(status)
    {
      driver.Issue(Call.SetPipeTimeout(handle, PipeByte(pipe), AsMillis(timeout)));
      r := TryD3xx(status);
    }

    /** `vid_pid`: the vendor and product IDs the driver reports. */
    method VidPid(status: Status, vid: u16, pid: u16) returns (r: D3xxResult<(nat, nat)>)
      requires open
      modifies driver
      ensures driver.calls == old(driver.calls) + [GetVidPid(handle)]
      ensures r.Ok? <==> status == 0
      ensures r.Ok? ==> r.value == (vid as nat, pid as nat)
      ensures r.Err? ==> r.error == FromStatus(status)
    {
      driver.Issue(GetVidPid(handle));
      var res := TryD3xx(status);
      if res.Err? {
        return Err(res.error);
      }
      r := Ok((vid as nat, pid as nat));
    }

    /** `Drop`: closes the handle. After it no operation of the session can run again. */
    method Close()
      requires open
      modifies this, driver
      ensures !open
      ensures driver.calls == old(driver.calls) + [Call.Close(handle)]
    {
      driver.Issue(Call.Close(handle));
      open := false;
    }
  }
}
