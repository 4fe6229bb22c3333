/** The provider's webhook, POST /api/retell: one event per request, sent to
    one of four handlers by its name, each handler changing the Call
    collection; afterwards the raw body is relayed to the automation endpoint
    when one is configured. */
module Retell {
  import opened Wrappers
  import opened CallModel
  import opened Store

  /** The four event names the webhook handles, and everything else. */
  datatype EventKind = CallStartedEvent | CallEndedEvent | ConversationUpdateEvent | FunctionCallEvent | OtherEvent

  function Classify(event: string): (k: EventKind)
    ensures k == CallStartedEvent <==> event == "call_started"
    ensures k == CallEndedEvent <==> event == "call_ended"
    ensures k == ConversationUpdateEvent <==> event == "conversation_update"
    ensures k == FunctionCallEvent <==> event == "function_call"
  {
    if event == "call_started" then CallStartedEvent
    else if event == "call_ended" then CallEndedEvent
    else if event == "conversation_update" then ConversationUpdateEvent
    else if event == "function_call" then FunctionCallEvent
    else OtherEvent
  }

  /** `parameters` of a `function_call` event. */
  datatype PaymentParameters = PaymentParameters(amount: Option<int>)

  /** The `data` object of an event; every field may be absent. */
  datatype EventData = EventData(
    phoneNumber: Field,
    fromNumber: Field,
    customerId: Field,
    language: Field,
    direction: Field,
    duration: Option<int>,
    transcript: Field,
    speaker: Field,
    functionName: Field,
    parameters: Option<PaymentParameters>)

  /** The request body `{ event, call_id, timestamp, data }`; `data` may be
      missing, and an absent `call_id` is the empty text. The body's own
      `timestamp` is never read. */
  datatype WebhookRequest = WebhookRequest(event: string, callId: string, data: Option<EventData>)

  /** 200 `{ success: true, message: 'Webhook processed' }` or
      500 `{ success: false, error: 'Failed to process webhook' }`. */
  datatype WebhookReply = Processed | ProcessingFailed {
    function StatusCode(): int {
      if Processed? then 200 else 500
    }
  }

  datatype PaymentResult = PaymentResult(paymentStatus: PaymentStatus, amount: int)

  /** The payment check stub. `paidDraw` is the outcome of the coin flip
      `Math.random() > 0.5`; reading `amount` from absent parameters throws,
      which is `None`. */
  function VerifyPayment(parameters: Option<PaymentParameters>, paidDraw: bool): (r: Option<PaymentResult>)
    ensures r.Some? <==> parameters.Some?
    ensures r.Some? ==> r.value.paymentStatus in {Paid, Unpaid}
    ensures r.Some? ==> (r.value.paymentStatus == Paid <==> paidDraw)
    ensures r.Some? ==> r.value.amount == OrZero(parameters.value.amount)
  {
    if parameters.None? then None
    else Some(PaymentResult(if paidDraw then Paid else Unpaid, parameters.value.amount.GetOr(0)))
  }

  // ---------------------------------------------------------------------------
  // The handlers' effect on the Call collection while the store is reachable

  /** The record `call_started` tries to save. The event's `direction` is not
      a field of the schema and is not kept. */
  function StartedRecord(callId: string, data: EventData, now: Time): Call {
    NewCall(CallInit(callId,
                     OrElse(data.phoneNumber, OrElse(data.fromNumber, "unknown")),
                     Some(InProgress), None, None, [],
                     Some(OrElse(data.customerId, "")),
                     Some(OrElse(data.language, "hi")),
                     None), now)
  }

  const StartedUpdate := CallUpdate(Some(InProgress), None, None, None)

  /** `call_started`: insert a fresh record; when that save fails (the id is
      taken, the id is empty, or `data` is missing) fall back to marking an
      existing record in progress. */
  function CallStarted(calls: map<string, Call>, callId: string, data: Option<EventData>, now: Time): (r: map<string, Call>)
    ensures forall k :: k in calls ==> k in r
    ensures forall k :: k in r && k != callId ==> k in calls && r[k] == calls[k]
    ensures callId in r <==> callId in calls || (data.Some? && callId != "")
    ensures callId in r ==> r[callId].status == InProgress && r[callId].updatedAt == now
    ensures callId in calls ==>
              r[callId] == calls[callId].(status := InProgress, updatedAt := now)
    ensures callId !in calls && callId in r ==>
              && r[callId].callId == callId
              && r[callId].phoneNumber == OrElse(data.value.phoneNumber, OrElse(data.value.fromNumber, "unknown"))
              && r[callId].metadata == CallMetadata(Some(OrElse(data.value.customerId, "")),
                                                    Some(OrElse(data.value.language, "hi")), 0)
              && r[callId].paymentStatus == Unknown && r[callId].duration == 0
              && r[callId].transcript == [] && r[callId].createdAt == now
  {
    if data.Some? && CallSaveError(calls, true, StartedRecord(callId, data.value, now)).None? then
      calls[callId := PreSave(StartedRecord(callId, data.value, now), now)]
    else
      UpdateOne(calls, callId, StartedUpdate, now)
  }

  function EndedUpdate(data: EventData): CallUpdate {
    CallUpdate(Some(Completed), Some(OrZero(data.duration)), None, None)
  }

  /** `call_ended`: mark a known call completed with the reported duration
      (0 when absent). An unknown id, or a missing `data`, changes nothing. */
  function CallEnded(calls: map<string, Call>, callId: string, data: Option<EventData>, now: Time): (r: map<string, Call>)
    ensures r.Keys == calls.Keys
    ensures forall k :: k in calls && k != callId ==> r[k] == calls[k]
    ensures data.None? ==> r == calls
    ensures callId in calls && data.Some? ==>
              r[callId] == calls[callId].(status := Completed, duration := OrZero(data.value.duration), updatedAt := now)
  {
    if data.None? then calls else UpdateOne(calls, callId, EndedUpdate(data.value), now)
  }

  /** The transcript line a `conversation_update` appends. */
  function SpokenEntry(data: EventData, now: Time): TranscriptEntry
    requires Truthy(data.transcript)
  {
    TranscriptEntry(OrElse(data.speaker, "Unknown"), data.transcript.value, now)
  }

  /** `conversation_update`: with a non-empty transcript fragment, append one
      entry at the end of that call's transcript; otherwise change nothing. */
  function ConversationUpdate(calls: map<string, Call>, callId: string, data: Option<EventData>, now: Time): (r: map<string, Call>)
    ensures r.Keys == calls.Keys
    ensures forall k :: k in calls && k != callId ==> r[k] == calls[k]
    ensures !(data.Some? && Truthy(data.value.transcript)) ==> r == calls
    ensures callId in calls && data.Some? && Truthy(data.value.transcript) ==>
              && r[callId].transcript == calls[callId].transcript + [SpokenEntry(data.value, now)]
              && r[callId].transcript[|r[callId].transcript| - 1].speaker == OrElse(data.value.speaker, "Unknown")
              && r[callId] == calls[callId].(transcript := r[callId].transcript, updatedAt := now)
  {
    if data.Some? && Truthy(data.value.transcript) then
      UpdateOne(calls, callId, CallUpdate(None, None, None, Some(SpokenEntry(data.value, now))), now)
    else
      calls
  }

  /** `function_call`: for `check_payment`, store the payment check's verdict
      on the call and change nothing else; every other function name, and a
      payment check without parameters, changes nothing. */
  function FunctionCall(calls: map<string, Call>, callId: string, data: Option<EventData>, now: Time, paidDraw: bool): (r: map<string, Call>)
    ensures r.Keys == calls.Keys
    ensures forall k :: k in calls && k != callId ==> r[k] == calls[k]
    ensures !(data.Some? && data.value.functionName == Some("check_payment") && data.value.parameters.Some?) ==> r == calls
    ensures callId in calls && data.Some? && data.value.functionName == Some("check_payment") && data.value.parameters.Some? ==>
              && r[callId].paymentStatus == (if paidDraw then Paid else Unpaid)
              && r[callId] == calls[callId].(paymentStatus := r[callId].paymentStatus, updatedAt := now)
  {
    if data.None? || data.value.functionName != Some("check_payment") then calls
    else match VerifyPayment(data.value.parameters, paidDraw)
      case None => calls
      case Some(p) => UpdateOne(calls, callId, CallUpdate(None, None, Some(p.paymentStatus), None), now)
  }

  /** The whole effect of one webhook request on the Call collection. While
      the store is unreachable every write throws and nothing changes. */
  function ApplyEvent(calls: map<string, Call>, connected: bool, req: WebhookRequest, now: Time, paidDraw: bool): map<string, Call> {
    if !connected then calls
    else match Classify(req.event)
      case CallStartedEvent => CallStarted(calls, req.callId, req.data, now)
      case CallEndedEvent => CallEnded(calls, req.callId, req.data, now)
      case ConversationUpdateEvent => ConversationUpdate(calls, req.callId, req.data, now)
      case FunctionCallEvent => FunctionCall(calls, req.callId, req.data, now, paidDraw)
      case OtherEvent => calls
  }

  /** The reply: only a throwing fallback update in `call_started` escapes
      its handler; the other handlers swallow their failures. */
  function WebhookOutcome(connected: bool, event: string): (reply: WebhookReply)
    ensures reply == ProcessingFailed <==> event == "call_started" && !connected
    ensures reply.StatusCode() == 500 <==> event == "call_started" && !connected
  {
    if Classify(event) == CallStartedEvent && !connected then ProcessingFailed else Processed
  }

  // ---------------------------------------------------------------------------
  // The handlers as they run against the store

  method HandleCallStarted(db: Database, callId: string, data: Option<EventData>, now: Time) returns (fault: bool)
    requires db.Valid()
    modifies db`calls
    ensures db.Valid()
    ensures fault == !db.connected
    ensures db.calls == if db.connected then CallStarted(old(db.calls), callId, data, now) else old(db.calls)
  {
    // A missing `data` throws while the record is built, as a failed save does.
    var saved := false;
    if data.Some? {
      var err := db.SaveCall(StartedRecord(callId, data.value, now), now);
      saved := err.None?;
    }
    fault := false;
    if !saved {
      var err := db.UpdateCall(callId, StartedUpdate, now);
      fault := err.Some?;
    }
  }

  method HandleCallEnded(db: Database, callId: string, data: Option<EventData>, now: Time)
    requires db.Valid()
    modifies db`calls
    ensures db.Valid()
    ensures db.calls == if db.connected then CallEnded(old(db.calls), callId, data, now) else old(db.calls)
  {
    if data.Some? {
      var err := db.UpdateCall(callId, EndedUpdate(data.value), now);
    }
  }

  method HandleConversationUpdate(db: Database, callId: string, data: Option<EventData>, now: Time)
    requires db.Valid()
    modifies db`calls
    ensures db.Valid()
    ensures db.calls == if db.connected then ConversationUpdate(old(db.calls), callId, data, now) else old(db.calls)
  {
    if data.Some? && Truthy(data.value.transcript) {
      var entry := SpokenEntry(data.value, now);
      var err := db.UpdateCall(callId, CallUpdate(None, None, None, Some(entry)), now);
    }
  }

  method HandleFunctionCall(db: Database, callId: string, data: Option<EventData>, now: Time, paidDraw: bool)
    requires db.Valid()
    modifies db`calls
    ensures db.Valid()
    ensures db.calls == if db.connected then FunctionCall(old(db.calls), callId, data, now, paidDraw) else old(db.calls)
  {
    if data.Some? && data.value.functionName == Some("check_payment") {
      var payment := VerifyPayment(data.value.parameters, paidDraw);
      if payment.Some? {
        var err := db.UpdateCall(callId, CallUpdate(None, None, Some(payment.value.paymentStatus), None), now);
      }
    }
    // `schedule_callback` is only logged here; callbacks are created by
    // POST /api/schedule_callback.
  }

  /** POST /api/retell. `relayed` says whether the body was forwarded to the
      automation endpoint; `relayFails` (the forward's outcome) never changes
      the reply. */
  method HandleWebhook(db: Database, req: WebhookRequest, n8nUrl: Field, relayFails: bool, now: Time, paidDraw: bool)
    returns (reply: WebhookReply, relayed: bool)
    requires db.Valid()
    modifies db`calls
    ensures db.Valid()
    ensures db.calls == ApplyEvent(old(db.calls), db.connected, req, now, paidDraw)
    ensures reply == WebhookOutcome(db.connected, req.event)
    ensures relayed <==> reply == Processed && Truthy(n8nUrl)
  {
    var fault := false;
    match Classify(req.event) {
      case CallStartedEvent =>
        fault := HandleCallStarted(db, req.callId, req.data, now);
      case CallEndedEvent =>
        HandleCallEnded(db, req.callId, req.data, now);
      case ConversationUpdateEvent =>
        HandleConversationUpdate(db, req.callId, req.data, now);
      case FunctionCallEvent =>
        HandleFunctionCall(db, req.callId, req.data, now, paidDraw);
      case OtherEvent =>
        // An unhandled event name is only logged.
    }
    if fault {
      return ProcessingFailed, false;
    }
    relayed := Truthy(n8nUrl);
    // A failed forward is logged and the request still succeeds.
    reply := Processed;
  }
}
