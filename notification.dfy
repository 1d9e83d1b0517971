/**
 * Device notifications (src/notification.rs): decoding the payload the driver hands to the
 * callback, and the registration whose trampoline forwards each decoded notification to the
 * user's callback together with the registered context.
 */
module Notifications {
  import opened Wrappers
  import opened D3xxErrors
  import opened NativeDriver
  import opened Pipes

  /** The discriminant the driver passes with every notification. */
  datatype CallbackType = DataType | GpioType

  /** The payload record the driver passes, one shape per discriminant. */
  datatype CallbackInfo =
    | DataInfo(recvNotificationLength: u32, endpointNo: bv8)
    | GpioInfo(gpio0: i32, gpio1: i32)

  /** `NotificationData`. */
  datatype NotificationData =
    | Data(endpoint: Pipe, size: nat)
    | Gpio(gpio0: i32, gpio1: i32)

  /** `Notification`: its getters `context()` and `data()` are the two fields. */
  datatype Notification<T> = Notification(context: Option<T>, data: NotificationData)

  /**
   * `extract_notification_data`. The payload must be of the shape its discriminant names,
   * which the driver guarantees. A data payload whose endpoint byte is not a pipe is
   * `OtherError`; a GPIO payload never fails.
   */
  function ExtractNotificationData(kind: CallbackType, info: CallbackInfo)
    : (r: D3xxResult<NotificationData>)
    requires kind.DataType? <==> info.DataInfo?
    ensures r.Err? <==> kind.DataType? && PipeFromByte(info.endpointNo).None?
    ensures r.Err? ==> r.error == OtherError
    ensures r.Ok? ==> (r.value.Data? <==> kind.DataType?)
  {
    match kind
    case DataType =>
      var endpoint := PipeFromByte(info.endpointNo);
      if endpoint.None? then Err(OtherError)
      else Ok(Data(endpoint.value, info.recvNotificationLength as nat))
    case GpioType => Ok(Gpio(info.gpio0, info.gpio1))
  }

  /**
   * A decoded data notification names the endpoint byte the driver reported and the number of
   * bytes it received; a GPIO notification carries both values unchanged.
   */
  lemma ExtractedFields(kind: CallbackType, info: CallbackInfo)
    requires kind.DataType? <==> info.DataInfo?
    ensures var r := ExtractNotificationData(kind, info);
      r.Ok? && r.value.Data? ==>
        PipeByte(r.value.endpoint) == info.endpointNo && r.value.size == info.recvNotificationLength
    ensures var r := ExtractNotificationData(kind, info);
      r.Ok? && r.value.Gpio? ==> r.value.gpio0 == info.gpio0 && r.value.gpio1 == info.gpio1
  {
  }

  /** Every pipe's endpoint byte decodes back to that pipe, with the reported length. */
  lemma ExtractDataRoundTrip(p: Pipe, length: u32)
    ensures ExtractNotificationData(DataType, DataInfo(length, PipeByte(p))) ==
      Ok(Data(p, length as nat))
  {
    PipeByteRoundTrip(p);
  }

  /** Identifies a user callback; what it does with a notification is outside the model. */
  type CallbackId = nat

  /** `InternalContext`: the user's callback and context, handed to the driver at registration. */
  datatype InternalContext<T> = InternalContext(callback: CallbackId, context: Option<T>)

  /** One invocation of a user callback by the trampoline. */
  datatype Invocation<T> = Invocation(callback: CallbackId, notification: Notification<T>)

  /** The notification registration of one device handle. */
  class NotificationSlot<T> {
    const driver: Driver
    const handle: Handle
    /** The context the driver passes to the trampoline, when one is registered. */
    var registered: Option<InternalContext<T>>
    /** Every user-callback invocation so far, in order. */
    var invocations: seq<Invocation<T>>

    constructor(driver: Driver, handle: Handle)
      ensures this.driver == driver && this.handle == handle
      ensures registered == None && invocations == []
    {
      this.driver := driver;
      this.handle := handle;
      registered := None;
      invocations := [];
    }

    /**
     * `set_notification_callback`: hands a fresh context record to the driver together with
     * the trampoline. `Ok` exactly when the driver status is 0, and only then is the new
     * context registered.
     */
    method Set(callback: CallbackId, context: Option<T>, contextRecord: nat, status: Status)
      returns (r: D3xxResult<Unit>)
      modifies this, driver
      ensures driver.calls == old(driver.calls) + [SetNotificationCallback(handle, contextRecord)]
      ensures r.Ok? <==> status == 0
      ensures r.Err? ==> r.error == FromStatus(status)
      ensures registered == if status == 0 then Some(InternalContext(callback, context))
                            else old(registered)
      ensures invocations == old(invocations)
    {
      driver.Issue(SetNotificationCallback(handle, contextRecord));
      r := TryD3xx(status);
      if r.Ok? {
        registered := Some(InternalContext(callback, context));
      }
    }

    /** `clear_notification_callback`: infallible; nothing is registered afterwards. */
    method Clear()
      modifies this, driver
      ensures driver.calls == old(driver.calls) + [ClearNotificationCallback(handle)]
      ensures registered == None && invocations == old(invocations)
    {
      driver.Issue(ClearNotificationCallback(handle));
      registered := None;
    }

    /**
     * `trampoline`: the driver delivers a notification for the registered context. The user
     * callback runs exactly once, with the registered context and the decoded data, when
     * decoding succeeds, and not at all when it fails.
     */
    method Trampoline(kind: CallbackType, info: CallbackInfo)
      requires registered.Some?
      requires kind.DataType? <==> info.DataInfo?
      modifies this
      ensures registered == old(registered)
      ensures var d := ExtractNotificationData(kind, info);
        invocations == old(invocations) +
          if d.Ok? then [Invocation(registered.value.callback,
                                    Notification(registered.value.context, d.value))]
          else []
    {
      var data := ExtractNotificationData(kind, info);
      if data.Ok? {
        var ctx := registered.value;
        invocations := invocations + [Invocation(ctx.callback, Notification(ctx.context, data.value))];
      }
    }
  }
}
