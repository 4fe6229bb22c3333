/** The call routes: GET /api/calls (the newest hundred), GET
    /api/calls/:callId, POST /api/calls/test-call (a simulated call, with a
    degraded mode when the store is down) and POST /api/calls/create (a real
    call placed through the voice-agent provider, then recorded). */
module CallsRoutes {
  import opened Wrappers
  import opened Decimal
  import opened CallModel
  import opened Store

  /** How many records the list routes return at most. */
  const ListLimit: nat := 100

  function CreatedAt(c: Call): Time {
    c.createdAt
  }

  /** 200 `{ success: true, calls }` or 500 `{ error: 'Failed to fetch calls' }`. */
  datatype ListReply = CallList(calls: seq<Call>) | ListFailed

  /** GET /api/calls. */
  method ListCalls(db: Database) returns (reply: ListReply)
    requires db.Valid()
    ensures reply.ListFailed? <==> !db.connected
    ensures reply.CallList? ==> IsNewestFirst(db.calls.Values, CreatedAt, ListLimit, reply.calls)
    ensures reply.CallList? ==> |reply.calls| == if |db.calls| < ListLimit then |db.calls| else ListLimit
  {
    if !db.connected {
      return ListFailed;
    }
    CallsCounted(db.calls);
    var newest := NewestFirst(db.calls.Values, CreatedAt, ListLimit);
    reply := CallList(newest);
  }

  /** 200 `{ success: true, call }`, 404 `{ error: 'Call not found' }` or
      500 `{ error: 'Failed to fetch call' }`. */
  datatype LookupReply = Found(call: Call) | NotFound | LookupFailed {
    function StatusCode(): int {
      match this
      case Found(_) => 200
      case NotFound => 404
      case LookupFailed => 500
    }
  }

  /** GET /api/calls/:callId: the record whose `call_id` matches, or 404. */
  function FindCall(db: Database, callId: string): (reply: LookupReply)
    reads db
    ensures reply.LookupFailed? <==> !db.connected
    ensures reply.NotFound? <==> db.connected && callId !in db.calls
    ensures reply.Found? ==> callId in db.calls && reply.call == db.calls[callId]
    ensures reply.Found? && CallsKeyed(db.calls) ==> reply.call.callId == callId
    ensures reply.StatusCode() == 404 <==> db.connected && callId !in db.calls
  {
    if !db.connected then LookupFailed
    else if callId in db.calls then Found(db.calls[callId])
    else NotFound
  }

  // ---------------------------------------------------------------------------
  // POST /api/calls/test-call

  /** The id of a test call made at `now`: `test_<Date.now()>`. */
  function TestCallId(now: Time): (id: string)
    ensures |id| > 5 && id[..5] == "test_"
    ensures now >= 0 ==> AllDigits(id[5..]) && ParseDecimal(id[5..]) == now
    ensures now < 0 ==> id[5] == '-' && AllDigits(id[6..]) && ParseDecimal(id[6..]) == -now
  {
    assert ("test_" + IntText(now))[5..] == IntText(now);
    "test_" + IntText(now)
  }

  lemma TestCallIdsDistinct(t1: Time, t2: Time)
    requires t1 != t2
    ensures TestCallId(t1) != TestCallId(t2)
  {
    if TestCallId(t1) == TestCallId(t2) {
      PrefixedInjective("test_", IntText(t1), IntText(t2));
      IntTextInjective(t1, t2);
    }
  }

  const AgentGreeting := "नमस्ते! मैं Rapid Capital का AI एजेंट हूं।"

  /** The simulated call stored for `phone` at `now`. */
  function TestCallRecord(phone: string, now: Time): (c: Call)
    ensures c.callId == TestCallId(now) && c.phoneNumber == phone
    ensures c.status == Completed && c.paymentStatus == Paid && c.duration == 120
    ensures |c.transcript| == 1 && c.transcript[0].speaker == "Agent"
    ensures c.transcript[0].message == AgentGreeting
    ensures c.metadata == CallMetadata(None, None, 0)
  {
    NewCall(CallInit(TestCallId(now), phone, Some(Completed), Some(Paid), Some(120),
                     [TranscriptEntry("Agent", AgentGreeting, now)], None, None, None), now)
  }

  /** Why a test call was reported without being stored. */
  datatype StorageWarning =
    | DatabaseUnavailable            // 'Database not available - call not saved'
    | DatabaseError(error: StoreError) // the store error's own message

  /** 200 `{ success: true, call_id, message, warning? }` or
      400 `{ error: 'Phone number is required' }`. */
  datatype TestCallReply =
    | TestCallStarted(callId: string, warning: Option<StorageWarning>)
    | TestCallRejected

  /** POST /api/calls/test-call with body `{ phone_number }`. */
  method TestCall(db: Database, phone: Field, now: Time) returns (reply: TestCallReply)
    requires db.Valid()
    modifies db`calls
    ensures db.Valid()
    ensures !Truthy(phone) ==> reply == TestCallRejected && db.calls == old(db.calls)
    ensures Truthy(phone) && !db.connected ==>
              reply == TestCallStarted(TestCallId(now), Some(DatabaseUnavailable)) && db.calls == old(db.calls)
    ensures Truthy(phone) && db.connected && TestCallId(now) !in old(db.calls) ==>
              && reply == TestCallStarted(TestCallId(now), None)
              && db.calls == old(db.calls)[TestCallId(now) := TestCallRecord(phone.value, now)]
    ensures Truthy(phone) && db.connected && TestCallId(now) in old(db.calls) ==>
              && reply == TestCallStarted(TestCallId(now), Some(DatabaseError(DuplicateKey)))
              && db.calls == old(db.calls)
  {
    if !Truthy(phone) {
      return TestCallRejected;
    }
    if !db.connected {
      return TestCallStarted(TestCallId(now), Some(DatabaseUnavailable));
    }
    var record := TestCallRecord(phone.value, now);
    var err := db.SaveCall(record, now);
    if err.None? {
      return TestCallStarted(record.callId, None);
    }
    // The phone number and the id are non-empty, so validation passes and
    // the only failure is the store's own: the route's 500 branch for other
    // error names is not reachable.
    assert IsDatabaseErrorName(ErrorName(err.value));
    // The id is drawn again from the clock; one clock reading per request.
    reply := TestCallStarted(TestCallId(now), Some(DatabaseError(err.value)));
  }

  // ---------------------------------------------------------------------------
  // POST /api/calls/create

  /** The environment settings the routes read. */
  datatype Env = Env(
    retellApiKey: Field,
    retellAgentId: Field,
    retellFromNumber: Field,
    n8nWebhookUrl: Field)

  /** The body `{ phone_number, customer_id?, from_number? }`. */
  datatype CreateRequest = CreateRequest(phoneNumber: Field, customerId: Field, fromNumber: Field)

  /** What is posted to the provider's create-phone-call endpoint, with the
      API key as bearer token. */
  datatype ProviderRequest = ProviderRequest(
    apiKey: string,
    fromNumber: string,
    toNumber: string,
    agentId: string,
    customerId: string,
    source: string)

  /** How the provider answers: the `call_id` it assigned (empty when its
      answer has none), or an error with its details. */
  datatype ProviderOutcome = ProviderAccepted(callId: string) | ProviderRejected(details: string)

  datatype CreateFailure =
    | NotConfigured                   // 'Retell.ai API key or Agent ID not configured'
    | ProviderError(details: string)  // 'Failed to create call' with the provider's details
    | RecordNotSaved(error: StoreError) // 'Failed to create call' with the store error

  /** 200 `{ success: true, call_id, message, retell_data }`,
      400 `{ error: 'Phone number is required' }`, or 500. */
  datatype CreateReply = CallCreated(callId: string) | CreateRejected | CreateFailed(failure: CreateFailure) {
    function StatusCode(): int {
      match this
      case CallCreated(_) => 200
      case CreateRejected => 400
      case CreateFailed(_) => 500
    }
  }

  /** The request placed with the provider once the input and the settings
      have been checked. */
  function ProviderRequestFor(req: CreateRequest, env: Env): (p: ProviderRequest)
    requires Truthy(req.phoneNumber) && Truthy(env.retellApiKey) && Truthy(env.retellAgentId)
    ensures p.apiKey == env.retellApiKey.value && p.source == "rapid-capital-platform"
    ensures p.toNumber == req.phoneNumber.value && p.agentId == env.retellAgentId.value
    ensures p.fromNumber == (if Truthy(req.fromNumber) then req.fromNumber.value
                             else if Truthy(env.retellFromNumber) then env.retellFromNumber.value
                             else "+1234567890")
    ensures p.customerId == (if Truthy(req.customerId) then req.customerId.value else "")
  {
    ProviderRequest(env.retellApiKey.value,
                    OrElse(req.fromNumber, OrElse(env.retellFromNumber, "+1234567890")),
                    req.phoneNumber.value,
                    env.retellAgentId.value,
                    OrElse(req.customerId, ""),
                    "rapid-capital-platform")
  }

  /** The record stored for a call the provider accepted. */
  function CreatedRecord(callId: string, req: CreateRequest, now: Time): (c: Call)
    requires Truthy(req.phoneNumber)
    ensures c.callId == callId && c.phoneNumber == req.phoneNumber.value
    ensures c.status == Initiated && c.paymentStatus == Unknown && c.duration == 0 && c.transcript == []
    ensures c.metadata == CallMetadata(Some(OrElse(req.customerId, "")), Some("hi"), 0)
  {
    NewCall(CallInit(callId, req.phoneNumber.value, Some(Initiated), Some(Unknown), None, [],
                     Some(OrElse(req.customerId, "")), Some("hi"), Some(0)), now)
  }

  /** POST /api/calls/create. `provider` is how the provider answers the
      request it is sent; `sent` is that request, if one was made. */
  method CreateCall(db: Database, req: CreateRequest, env: Env, provider: ProviderOutcome, now: Time)
    returns (reply: CreateReply, sent: Option<ProviderRequest>)
    requires db.Valid()
    modifies db`calls
    ensures db.Valid()
    ensures reply.StatusCode() == 400 <==> !Truthy(req.phoneNumber)
    ensures reply.StatusCode() == 200 <==> reply.CallCreated?
    ensures !Truthy(req.phoneNumber) ==> reply == CreateRejected && sent == None
    ensures Truthy(req.phoneNumber) && !(Truthy(env.retellApiKey) && Truthy(env.retellAgentId)) ==>
              reply == CreateFailed(NotConfigured) && sent == None
    ensures sent.Some? <==> Truthy(req.phoneNumber) && Truthy(env.retellApiKey) && Truthy(env.retellAgentId)
    ensures sent.Some? ==> sent.value == ProviderRequestFor(req, env)
    ensures sent.Some? && provider.ProviderRejected? ==> reply == CreateFailed(ProviderError(provider.details))
    ensures sent.Some? && provider.ProviderAccepted? ==>
              var record := CreatedRecord(provider.callId, req, now);
              var err := CallSaveError(old(db.calls), db.connected, record);
              reply == (if err.None? then CallCreated(provider.callId) else CreateFailed(RecordNotSaved(err.value)))
    ensures reply.CallCreated? ==>
              db.calls == old(db.calls)[reply.callId := CreatedRecord(reply.callId, req, now)]
    ensures !reply.CallCreated? ==> db.calls == old(db.calls)
  {
    if !Truthy(req.phoneNumber) {
      return CreateRejected, None;
    }
    if !Truthy(env.retellApiKey) || !Truthy(env.retellAgentId) {
      return CreateFailed(NotConfigured), None;
    }
    sent := Some(ProviderRequestFor(req, env));
    match provider {
      case ProviderRejected(details) =>
        reply := CreateFailed(ProviderError(details));
      case ProviderAccepted(callId) =>
        var record := CreatedRecord(callId, req, now);
        var err := db.SaveCall(record, now);
        reply := if err.None? then CallCreated(callId) else CreateFailed(RecordNotSaved(err.value));
    }
  }
}
