/** The automation-facing routes: GET /api/callbacks (the newest hundred),
    POST /api/check_payment (a stubbed payment check, relayed best-effort),
    POST /api/schedule_callback (validate, store a Callback, then relay) and
    POST /api/trigger-n8n (a manual relay). */
module Webhooks {
  import opened Wrappers
  import opened Decimal
  import opened CallModel
  import opened CallbackModel
  import opened Store

  const CallbackListLimit: nat := 100

  function CallbackCreatedAt(cb: Callback): Time {
    cb.createdAt
  }

  /** 200 `{ success: true, callbacks }` or 500 `{ error: 'Failed to fetch callbacks' }`. */
  datatype CallbackListReply = CallbackList(callbacks: seq<Callback>) | CallbackListFailed

  /** GET /api/callbacks. */
  method ListCallbacks(db: Database) returns (reply: CallbackListReply)
    requires db.Valid()
    ensures reply.CallbackListFailed? <==> !db.connected
    ensures reply.CallbackList? ==>
              IsNewestFirst(db.callbacks.Values, CallbackCreatedAt, CallbackListLimit, reply.callbacks)
    ensures reply.CallbackList? ==>
              |reply.callbacks| == if |db.callbacks| < CallbackListLimit then |db.callbacks| else CallbackListLimit
  {
    if !db.connected {
      return CallbackListFailed;
    }
    CallbacksCounted(db.callbacks);
    var newest := NewestFirst(db.callbacks.Values, CallbackCreatedAt, CallbackListLimit);
    reply := CallbackList(newest);
  }

  // ---------------------------------------------------------------------------
  // POST /api/check_payment

  /** The body `{ customer_id, phone_number, amount }`. */
  datatype PaymentRequest = PaymentRequest(customerId: Field, phoneNumber: Field, amount: Option<int>)

  /** What is relayed to `<n8n>/check_payment`: the request's fields and the
      time of the request. */
  datatype PaymentRelay = PaymentRelay(customerId: Field, phoneNumber: Field, amount: Option<int>, timestamp: Time)

  /** 200 `{ success: true, payment_status, amount, payment_date }`. */
  datatype PaymentReply = PaymentReply(success: bool, paymentStatus: PaymentStatus, amount: int, paymentDate: Time)

  datatype CheckPaymentResult = CheckPaymentResult(reply: PaymentReply, relay: Option<PaymentRelay>)

  /** POST /api/check_payment. `paidDraw` is the outcome of the coin flip
      `Math.random() > 0.5`; `relayFails` is whether the relay throws, which
      is caught and logged. */
  function CheckPayment(req: PaymentRequest, n8nUrl: Field, relayFails: bool, paidDraw: bool, now: Time): (r: CheckPaymentResult)
    ensures r.reply.success
    ensures r.reply.paymentStatus in {Paid, Unpaid} && (r.reply.paymentStatus == Paid <==> paidDraw)
    ensures r.reply.amount == OrZero(req.amount) && r.reply.paymentDate == now
    ensures r.relay.Some? <==> Truthy(n8nUrl)
    ensures r.relay.Some? ==> r.relay.value == PaymentRelay(req.customerId, req.phoneNumber, req.amount, now)
  {
    var relay := if Truthy(n8nUrl) then Some(PaymentRelay(req.customerId, req.phoneNumber, req.amount, now)) else None;
    // Whether the relay fails or not, the reply below is built the same way.
    CheckPaymentResult(PaymentReply(true, if paidDraw then Paid else Unpaid, req.amount.GetOr(0), now), relay)
  }

  /** A failing relay does not change what check_payment answers. */
  lemma RelayFailureInvisible(req: PaymentRequest, n8nUrl: Field, paidDraw: bool, now: Time)
    ensures CheckPayment(req, n8nUrl, true, paidDraw, now) == CheckPayment(req, n8nUrl, false, paidDraw, now)
  {
  }

  // ---------------------------------------------------------------------------
  // POST /api/schedule_callback

  /** The body `{ customer_id, phone_number, callback_time, reason? }`.
      `callbackDate` is the instant `new Date(callback_time)` denotes, `None`
      when the text is not a date. */
  datatype ScheduleRequest = ScheduleRequest(
    customerId: Field,
    phoneNumber: Field,
    callbackTime: Field,
    callbackDate: Option<Time>,
    reason: Field)

  /** The three fields the route insists on. */
  predicate HasRequiredFields(req: ScheduleRequest) {
    Truthy(req.customerId) && Truthy(req.phoneNumber) && Truthy(req.callbackTime)
  }

  /** The id of a callback scheduled at `now`: `cb_<Date.now()>`. */
  function CallbackId(now: Time): (id: string)
    ensures |id| > 3 && id[..3] == "cb_"
    ensures now >= 0 ==> AllDigits(id[3..]) && ParseDecimal(id[3..]) == now
    ensures now < 0 ==> id[3] == '-' && AllDigits(id[4..]) && ParseDecimal(id[4..]) == -now
  {
    assert ("cb_" + IntText(now))[3..] == IntText(now);
    "cb_" + IntText(now)
  }

  lemma CallbackIdsDistinct(t1: Time, t2: Time)
    requires t1 != t2
    ensures CallbackId(t1) != CallbackId(t2)
  {
    if CallbackId(t1) == CallbackId(t2) {
      PrefixedInjective("cb_", IntText(t1), IntText(t2));
      IntTextInjective(t1, t2);
    }
  }

  /** The Callback a valid request stores. */
  function ScheduledCallback(req: ScheduleRequest, now: Time): (cb: Callback)
    requires HasRequiredFields(req)
    ensures cb.callbackId == CallbackId(now) && cb.status == Scheduled
    ensures cb.customerId == req.customerId.value && cb.phoneNumber == req.phoneNumber.value
    ensures cb.scheduledTime == req.callbackDate
    ensures cb.reason == (if Truthy(req.reason) then req.reason.value else "Customer requested callback")
    ensures cb.createdAt == now
  {
    NewCallback(CallbackInit(CallbackId(now), req.customerId.value, req.phoneNumber.value, req.callbackDate,
                             Some(OrElse(req.reason, "Customer requested callback")), Some(Scheduled)), now)
  }

  /** What is relayed to `<n8n>/schedule_callback`: the stored id and reason
      and the request's own `callback_time` text. */
  datatype CallbackRelay = CallbackRelay(callbackId: string, customerId: string, phoneNumber: string, scheduledTime: string, reason: string)

  /** 200 `{ success: true, callback_id, scheduled_time, message }`,
      400 `{ error: 'Missing required fields: customer_id, phone_number, callback_time' }`
      or 500 `{ error: 'Failed to schedule callback' }`. */
  datatype ScheduleReply =
    | CallbackScheduled(callbackId: string, scheduledTime: Time)
    | ScheduleRejected
    | ScheduleFailed(error: StoreError)
  {
    function StatusCode(): int {
      match this
      case CallbackScheduled(_, _) => 200
      case ScheduleRejected => 400
      case ScheduleFailed(_) => 500
    }
  }

  /** POST /api/schedule_callback. `relay` is what was forwarded, if
      anything; `relayFails` (the forward's outcome) never changes the reply. */
  method ScheduleCallback(db: Database, req: ScheduleRequest, n8nUrl: Field, relayFails: bool, now: Time)
    returns (reply: ScheduleReply, relay: Option<CallbackRelay>)
    requires db.Valid()
    modifies db`callbacks
    ensures db.Valid()
    ensures reply.StatusCode() == 400 <==> !HasRequiredFields(req)
    ensures reply.StatusCode() == 500 ==> db.callbacks == old(db.callbacks)
    ensures !HasRequiredFields(req) ==> reply == ScheduleRejected && relay == None && db.callbacks == old(db.callbacks)
    ensures HasRequiredFields(req) ==>
              var cb := ScheduledCallback(req, now);
              var err := CallbackSaveError(old(db.callbacks), db.connected, cb);
              && (err.None? ==> && reply == CallbackScheduled(cb.callbackId, req.callbackDate.value)
                                && db.callbacks == old(db.callbacks)[cb.callbackId := cb])
              && (err.Some? ==> reply == ScheduleFailed(err.value) && db.callbacks == old(db.callbacks))
    ensures relay.Some? <==> reply.CallbackScheduled? && Truthy(n8nUrl)
    ensures relay.Some? ==>
              relay.value == CallbackRelay(reply.callbackId, req.customerId.value, req.phoneNumber.value,
                                           req.callbackTime.value, ScheduledCallback(req, now).reason)
  {
    if !HasRequiredFields(req) {
      return ScheduleRejected, None;
    }
    var cb := ScheduledCallback(req, now);
    var err := db.SaveCallback(cb, now);
    if err.Some? {
      return ScheduleFailed(err.value), None;
    }
    relay := None;
    if Truthy(n8nUrl) {
      // A failed forward is logged and the request still succeeds.
      relay := Some(CallbackRelay(cb.callbackId, req.customerId.value, req.phoneNumber.value,
                                  req.callbackTime.value, cb.reason));
    }
    reply := CallbackScheduled(cb.callbackId, cb.scheduledTime.value);
  }

  // ---------------------------------------------------------------------------
  // POST /api/trigger-n8n

  /** How the automation endpoint answers a manual trigger. */
  datatype RelayOutcome = RelayAnswered(data: string) | RelayError(message: string)

  /** 200 `{ success: true, message, response }`, 400
      `{ error: 'N8N_WEBHOOK_URL not configured' }` or 500 with the error's
      message. */
  datatype TriggerReply = Triggered(response: string) | TriggerNotConfigured | TriggerFailed(details: string)

  /** The body posted by a manual trigger: `{ action: 'test', timestamp,
      ...body }`, so the request's own fields win over the two defaults. */
  function TriggerPayload(body: map<string, string>, timestamp: string): (p: map<string, string>)
    ensures p.Keys == body.Keys + {"action", "timestamp"}
    ensures forall k :: k in body ==> p[k] == body[k]
    ensures "action" !in body ==> p["action"] == "test"
    ensures "timestamp" !in body ==> p["timestamp"] == timestamp
  {
    map["action" := "test", "timestamp" := timestamp] + body
  }

  /** POST /api/trigger-n8n: refused with 400 when no endpoint is configured;
      otherwise the answer of the endpoint, or 500 when the post throws.
      `sent` is the payload, when one was posted. */
  function TriggerN8n(n8nUrl: Field, body: map<string, string>, timestamp: string, outcome: RelayOutcome)
    : (r: (TriggerReply, Option<map<string, string>>))
    ensures r.0 == TriggerNotConfigured <==> !Truthy(n8nUrl)
    ensures r.1.Some? <==> Truthy(n8nUrl)
    ensures r.1.Some? ==> r.1.value == TriggerPayload(body, timestamp)
    ensures Truthy(n8nUrl) ==> r.0 == (match outcome
                                      case RelayAnswered(data) => Triggered(data)
                                      case RelayError(message) => TriggerFailed(message))
  {
    if !Truthy(n8nUrl) then (TriggerNotConfigured, None)
    else
      var sent := Some(TriggerPayload(body, timestamp));
      match outcome
      case RelayAnswered(data) => (Triggered(data), sent)
      case RelayError(message) => (TriggerFailed(message), sent)
  }
}
