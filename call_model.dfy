/** The Call record of the document store: its fields, the two enumerations,
    the defaults a new document receives, the required fields checked on
    save, the pre-save hook and the uniqueness of `call_id` across the
    collection. */
module CallModel {
  import opened Wrappers

  /** Milliseconds since the epoch, as `Date.now()` returns them. */
  type Time = int

  datatype CallStatus = Initiated | Ringing | InProgress | Completed | Failed

  datatype PaymentStatus = Paid | Unpaid | Pending | Unknown

  /** The text each status is stored as. */
  function StatusName(s: CallStatus): string {
    match s
    case Initiated => "initiated"
    case Ringing => "ringing"
    case InProgress => "in-progress"
    case Completed => "completed"
    case Failed => "failed"
  }

  /** The enumeration check of the schema: a text is accepted exactly when it
      names one of the five statuses. */
  function ParseStatus(name: string): (r: Option<CallStatus>)
    ensures r.Some? ==> StatusName(r.value) == name
  {
    if name == "initiated" then Some(Initiated)
    else if name == "ringing" then Some(Ringing)
    else if name == "in-progress" then Some(InProgress)
    else if name == "completed" then Some(Completed)
    else if name == "failed" then Some(Failed)
    else None
  }

  lemma StatusNamesRoundTrip(s: CallStatus)
    ensures ParseStatus(StatusName(s)) == Some(s)
  {
  }

  function PaymentName(p: PaymentStatus): string {
    match p
    case Paid => "paid"
    case Unpaid => "unpaid"
    case Pending => "pending"
    case Unknown => "unknown"
  }

  function ParsePayment(name: string): (r: Option<PaymentStatus>)
    ensures r.Some? ==> PaymentName(r.value) == name
  {
    if name == "paid" then Some(Paid)
    else if name == "unpaid" then Some(Unpaid)
    else if name == "pending" then Some(Pending)
    else if name == "unknown" then Some(Unknown)
    else None
  }

  lemma PaymentNamesRoundTrip(p: PaymentStatus)
    ensures ParsePayment(PaymentName(p)) == Some(p)
  {
  }

  /** One line of a call's transcript. */
  datatype TranscriptEntry = TranscriptEntry(speaker: string, message: string, timestamp: Time)

  /** The nested `metadata` path of a Call. `customer_id` and `language` have
      no default and stay absent unless given. */
  datatype CallMetadata = CallMetadata(customerId: Field, language: Field, retryCount: int)

  datatype Call = Call(
    callId: string,
    phoneNumber: string,
    status: CallStatus,
    paymentStatus: PaymentStatus,
    duration: int,
    transcript: seq<TranscriptEntry>,
    metadata: CallMetadata,
    createdAt: Time,
    updatedAt: Time)

  /** What a route passes to `new Call({...})`; `None` is a field it leaves
      out, so that the schema default applies. */
  datatype CallInit = CallInit(
    callId: string,
    phoneNumber: string,
    status: Option<CallStatus>,
    paymentStatus: Option<PaymentStatus>,
    duration: Option<int>,
    transcript: seq<TranscriptEntry>,
    customerId: Field,
    language: Field,
    retryCount: Option<int>)

  /** The document `new Call(init)` builds at time `now`. */
  function NewCall(init: CallInit, now: Time): (c: Call)
    ensures c.callId == init.callId && c.phoneNumber == init.phoneNumber
    ensures c.status == (if init.status.Some? then init.status.value else Initiated)
    ensures c.paymentStatus == (if init.paymentStatus.Some? then init.paymentStatus.value else Unknown)
    ensures c.duration == (if init.duration.Some? then init.duration.value else 0)
    ensures c.metadata.retryCount == (if init.retryCount.Some? then init.retryCount.value else 0)
    ensures c.transcript == init.transcript
    ensures c.metadata.customerId == init.customerId && c.metadata.language == init.language
    ensures c.createdAt == now && c.updatedAt == now
  {
    Call(init.callId, init.phoneNumber,
         init.status.GetOr(Initiated),
         init.paymentStatus.GetOr(Unknown),
         init.duration.GetOr(0),
         init.transcript,
         CallMetadata(init.customerId, init.language, init.retryCount.GetOr(0)),
         now, now)
  }

  /** The `required` checks run before a save: both texts must be non-empty. */
  predicate Validates(c: Call) {
    c.callId != "" && c.phoneNumber != ""
  }

  /** The pre-save hook: every save stamps `updated_at` with the save time. */
  function PreSave(c: Call, now: Time): (r: Call)
    ensures r.updatedAt == now
    ensures r.(updatedAt := c.updatedAt) == c
  {
    c.(updatedAt := now)
  }

  /** The collection invariant: each record is stored under its own
      `call_id` (so ids are unique) and passed validation. */
  ghost predicate CallsKeyed(calls: map<string, Call>) {
    forall id :: id in calls ==> calls[id].callId == id && Validates(calls[id])
  }
}
