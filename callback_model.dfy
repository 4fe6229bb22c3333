/** The Callback record of the document store: required fields, the status
    enumeration with its default, the default reason, the pre-save hook and
    the uniqueness of `callback_id`. */
module CallbackModel {
  import opened Wrappers
  import opened CallModel

  datatype CallbackStatus = Scheduled | Done | Cancelled | Missed

  /** The text each status is stored as (`Done` is stored as "completed"). */
  function CallbackStatusName(s: CallbackStatus): string {
    match s
    case Scheduled => "scheduled"
    case Done => "completed"
    case Cancelled => "cancelled"
    case Missed => "missed"
  }

  function ParseCallbackStatus(name: string): (r: Option<CallbackStatus>)
    ensures r.Some? ==> CallbackStatusName(r.value) == name
  {
    if name == "scheduled" then Some(Scheduled)
    else if name == "completed" then Some(Done)
    else if name == "cancelled" then Some(Cancelled)
    else if name == "missed" then Some(Missed)
    else None
  }

  lemma CallbackStatusNamesRoundTrip(s: CallbackStatus)
    ensures ParseCallbackStatus(CallbackStatusName(s)) == Some(s)
  {
  }

  /** `scheduledTime` is `None` when the given time did not parse as a date
      (an Invalid Date, which the schema's cast rejects). */
  datatype Callback = Callback(
    callbackId: string,
    customerId: string,
    phoneNumber: string,
    scheduledTime: Option<Time>,
    reason: string,
    status: CallbackStatus,
    createdAt: Time,
    updatedAt: Time)

  /** What a route passes to `new Callback({...})`. */
  datatype CallbackInit = CallbackInit(
    callbackId: string,
    customerId: string,
    phoneNumber: string,
    scheduledTime: Option<Time>,
    reason: Field,
    status: Option<CallbackStatus>)

  /** The document `new Callback(init)` builds at time `now`. */
  function NewCallback(init: CallbackInit, now: Time): (cb: Callback)
    ensures cb.callbackId == init.callbackId && cb.customerId == init.customerId
    ensures cb.phoneNumber == init.phoneNumber && cb.scheduledTime == init.scheduledTime
    ensures cb.reason == (if init.reason.Some? then init.reason.value else "")
    ensures cb.status == (if init.status.Some? then init.status.value else Scheduled)
    ensures cb.createdAt == now && cb.updatedAt == now
  {
    Callback(init.callbackId, init.customerId, init.phoneNumber, init.scheduledTime,
             init.reason.GetOr(""), init.status.GetOr(Scheduled), now, now)
  }

  /** The `required` checks run before a save. */
  predicate CallbackValidates(cb: Callback) {
    cb.callbackId != "" && cb.customerId != "" && cb.phoneNumber != "" && cb.scheduledTime.Some?
  }

  /** The pre-save hook: only `updated_at` changes, to the save time. */
  function CallbackPreSave(cb: Callback, now: Time): (r: Callback)
    ensures r.updatedAt == now
    ensures r.(updatedAt := cb.updatedAt) == cb
  {
    cb.(updatedAt := now)
  }

  /** The collection invariant: each record is stored under its own
      `callback_id` and passed validation. */
  ghost predicate CallbacksKeyed(callbacks: map<string, Callback>) {
    forall id :: id in callbacks ==> callbacks[id].callbackId == id && CallbackValidates(callbacks[id])
  }
}
