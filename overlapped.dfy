/**
 * The asynchronous-transfer completion record and its poll protocol (src/overlapped.rs).
 * `Overlapped` owns one native completion record for its whole life: it is initialised on
 * creation, queried without blocking on each poll, and released exactly once when dropped.
 */
module OverlappedIo {
  import opened Wrappers
  import opened D3xxErrors
  import opened NativeDriver

  /** The outcome of one poll of a future. */
  datatype Poll<T> = Pending | Ready(value: T)

  /** `poll_once`: the status of the overlapped-result query, then the bytes transferred. */
  function QueryResult(status: Status, transferred: u32): (r: D3xxResult<nat>)
    ensures r.Ok? <==> status == 0
    ensures r.Ok? ==> r.value == transferred
    ensures r.Err? ==> r.error == FromStatus(status)
  {
    match TryD3xx(status)
    case Err(e) => Err(e)
    case Ok(_) => Ok(transferred)
  }

  /**
   * The classification made by `Future::poll`: the two transient errors "pending" and
   * "incomplete" mean the transfer is still in flight; any other outcome is final and is
   * returned unchanged.
   */
  function Classify(query: D3xxResult<nat>): (p: Poll<D3xxResult<nat>>)
    ensures p.Pending? <==> query == Err(IoPending) || query == Err(IoIncomplete)
    ensures p.Ready? ==> p.value == query
  {
    match query
    case Ok(n) => Ready(Ok(n))
    case Err(IoPending) => Pending
    case Err(IoIncomplete) => Pending
    case Err(e) => Ready(Err(e))
  }

  /**
   * In terms of the driver's status: a poll is pending for exactly the codes 24 and 25, is
   * `Ready(Ok(n))` for status 0, and is otherwise `Ready(Err(e))` for the status's error.
   */
  lemma ClassifyStatus(status: Status, transferred: u32)
    ensures Classify(QueryResult(status, transferred)).Pending? <==> status == 24 || status == 25
    ensures status == 0 ==> Classify(QueryResult(status, transferred)) == Ready(Ok(transferred as nat))
    ensures status != 0 && status != 24 && status != 25 ==>
      Classify(QueryResult(status, transferred)) == Ready(Err(FromStatus(status)))
  {
    if status != 0 {
      assert FromStatus(status) == IoPending <==> status == 24;
      assert FromStatus(status) == IoIncomplete <==> status == 25;
    }
  }

  /** One native completion record bound to a device handle. */
  class Overlapped {
    const driver: Driver
    /** The handle captured at creation; every later call on the record uses it. */
    const handle: Handle
    const record: RecordId
    /** True until the record has been released. */
    var live: bool

    constructor Initialized(driver: Driver, handle: Handle, record: RecordId)
      ensures this.driver == driver && this.handle == handle && this.record == record && live
    {
      this.driver := driver;
      this.handle := handle;
      this.record := record;
      live := true;
    }

    /**
     * `Overlapped::with_handle`: initialises the native record. On failure no object exists,
     * so nothing is ever released for it.
     */
    static method WithHandle(driver: Driver, handle: Handle, record: RecordId, status: Status)
      returns (r: Result<Overlapped, D3xxError>)
      modifies driver
      ensures driver.calls == old(driver.calls) + [InitializeOverlapped(handle, record)]
      ensures r.Ok? <==> status == 0
      ensures r.Err? ==> r.error == FromStatus(status)
      ensures r.Ok? ==> fresh(r.value) && r.value.live && r.value.driver == driver &&
                        r.value.handle == handle && r.value.record == record
    {
      driver.Issue(InitializeOverlapped(handle, record));
      var init := TryD3xx(status);
      if init.Err? {
        r := Err(init.error);
      } else {
        var o := new Overlapped.Initialized(driver, handle, record);
        r := Ok(o);
      }
    }

    /** `poll_once`: queries the record, blocking only when `wait` is set. */
    method PollOnce(wait: bool, status: Status, transferred: u32) returns (r: D3xxResult<nat>)
      requires live
      modifies driver
      ensures driver.calls == old(driver.calls) + [GetOverlappedResult(handle, record, wait)]
      ensures r == QueryResult(status, transferred)
    {
      driver.Issue(GetOverlappedResult(handle, record, wait));
      r := QueryResult(status, transferred);
    }

    /**
     * `Future::poll`: one non-blocking query, classified. Polling leaves the record live and
     * never releases it. (The wake-up request on `Pending` belongs to the executor.)
     */
    method Poll(status: Status, transferred: u32) returns (p: Poll<D3xxResult<nat>>)
      requires live
      modifies driver
      ensures live
      ensures driver.calls == old(driver.calls) + [GetOverlappedResult(handle, record, false)]
      ensures p == Classify(QueryResult(status, transferred))
    {
      var r := PollOnce(false, status, transferred);
      p := Classify(r);
    }

    /** `Drop`: releases the record against the handle captured at creation. */
    method Drop()
      requires live
      modifies this, driver
      ensures !live
      ensures driver.calls == old(driver.calls) + [ReleaseOverlapped(handle, record)]
    {
      driver.Issue(ReleaseOverlapped(handle, record));
      live := false;
    }
  }
}
