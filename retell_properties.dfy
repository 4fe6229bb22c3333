/** What the webhook guarantees over one request and over a run of
    requests: the collection stays keyed by `call_id`, records are never
    removed, a record's identity never changes and its transcript only grows,
    unknown events and unknown ids change nothing, and `call_ended` is
    idempotent. */
module RetellProperties {
  import opened Wrappers
  import opened CallModel
  import opened Store
  import opened Retell

  /** One stored record evolving into another: same id, phone number,
      metadata and creation time, and the old transcript is a prefix of the
      new one. */
  predicate Stable(before: Call, after: Call) {
    && after.callId == before.callId
    && after.phoneNumber == before.phoneNumber
    && after.metadata == before.metadata
    && after.createdAt == before.createdAt
    && before.transcript <= after.transcript
  }

  /** Every record of `before` is still there and has only evolved. */
  ghost predicate Evolves(before: map<string, Call>, after: map<string, Call>) {
    forall k :: k in before ==> k in after && Stable(before[k], after[k])
  }

  lemma {:induction false} EvolvesTransitive(a: map<string, Call>, b: map<string, Call>, c: map<string, Call>)
    requires Evolves(a, b) && Evolves(b, c)
    ensures Evolves(a, c)
  {
    forall k | k in a
      ensures k in c && Stable(a[k], c[k])
    {
      var t1, t2, t3 := a[k].transcript, b[k].transcript, c[k].transcript;
      assert t1 == t2[..|t1|] && t2 == t3[..|t2|];
      assert t1 == t3[..|t1|];
    }
  }

  /** One request keeps the collection keyed by `call_id`. */
  lemma EventKeepsKeyed(calls: map<string, Call>, connected: bool, req: WebhookRequest, now: Time, paidDraw: bool)
    requires CallsKeyed(calls)
    ensures CallsKeyed(ApplyEvent(calls, connected, req, now, paidDraw))
  {
  }

  /** One request removes no record and only lets records evolve. */
  lemma EventEvolves(calls: map<string, Call>, connected: bool, req: WebhookRequest, now: Time, paidDraw: bool)
    ensures Evolves(calls, ApplyEvent(calls, connected, req, now, paidDraw))
  {
  }

  /** An event name outside the four handled ones changes no record. */
  lemma UnknownEventChangesNothing(calls: map<string, Call>, connected: bool, req: WebhookRequest, now: Time, paidDraw: bool)
    requires req.event !in {"call_started", "call_ended", "conversation_update", "function_call"}
    ensures ApplyEvent(calls, connected, req, now, paidDraw) == calls
  {
  }

  /** Only `call_started` can create a record; the other events, on an
      unknown id, change nothing at all. */
  lemma UnknownIdUntouched(calls: map<string, Call>, connected: bool, req: WebhookRequest, now: Time, paidDraw: bool)
    requires req.callId !in calls && req.event != "call_started"
    ensures ApplyEvent(calls, connected, req, now, paidDraw) == calls
  {
    var r := ApplyEvent(calls, connected, req, now, paidDraw);
    assert forall k :: k in r ==> r[k] == calls[k];
  }

  /** Replaying a `call_ended` event gives the same collection as delivering
      it once (at the later time). */
  lemma CallEndedIdempotent(calls: map<string, Call>, callId: string, data: Option<EventData>, t1: Time, t2: Time)
    ensures CallEnded(CallEnded(calls, callId, data, t1), callId, data, t2) == CallEnded(calls, callId, data, t2)
  {
  }

  /** Status and duration after a replayed `call_ended` do not depend on the
      times of delivery. */
  lemma CallEndedReplaySameOutcome(calls: map<string, Call>, callId: string, data: EventData, t1: Time, t2: Time)
    requires callId in calls
    ensures var once := CallEnded(calls, callId, Some(data), t1)[callId];
            var twice := CallEnded(CallEnded(calls, callId, Some(data), t1), callId, Some(data), t2)[callId];
            once.status == twice.status == Completed && once.duration == twice.duration == OrZero(data.duration)
  {
  }

  /** One delivered webhook request: the body, the clock reading and the
      outcome of the payment coin flip. */
  datatype Delivery = Delivery(req: WebhookRequest, now: Time, paidDraw: bool)

  /** The collection after a run of deliveries, in arrival order. */
  function ApplyEvents(calls: map<string, Call>, connected: bool, run: seq<Delivery>): map<string, Call>
    decreases |run|
  {
    if run == [] then calls
    else ApplyEvents(ApplyEvent(calls, connected, run[0].req, run[0].now, run[0].paidDraw), connected, run[1..])
  }

  /** Over any run of requests records are never deleted, their identity,
      phone number and metadata never change, their transcripts are
      append-only, and the collection stays keyed by `call_id`. */
  lemma {:induction false} RunEvolves(calls: map<string, Call>, connected: bool, run: seq<Delivery>)
    requires CallsKeyed(calls)
    ensures Evolves(calls, ApplyEvents(calls, connected, run))
    ensures CallsKeyed(ApplyEvents(calls, connected, run))
    decreases |run|
  {
    if run == [] {
      assert forall k :: k in calls ==> Stable(calls[k], calls[k]) by {
        forall k | k in calls ensures Stable(calls[k], calls[k]) {
          assert calls[k].transcript == calls[k].transcript[..|calls[k].transcript|];
        }
      }
    } else {
      var next := ApplyEvent(calls, connected, run[0].req, run[0].now, run[0].paidDraw);
      EventEvolves(calls, connected, run[0].req, run[0].now, run[0].paidDraw);
      EventKeepsKeyed(calls, connected, run[0].req, run[0].now, run[0].paidDraw);
      RunEvolves(next, connected, run[1..]);
      EvolvesTransitive(calls, next, ApplyEvents(calls, connected, run));
    }
  }

  /** `call_started` for a fresh id followed by `call_ended` with a duration
      leaves a completed record with that duration and the phone number and
      language the first event gave. */
  lemma StartThenEnd(calls: map<string, Call>, callId: string, phone: string, duration: int, t1: Time, t2: Time)
    requires callId !in calls && callId != "" && phone != ""
    ensures var start := EventData(Some(phone), None, None, Some("hi"), None, None, None, None, None, None);
            var end := EventData(None, None, None, None, None, Some(duration), None, None, None, None);
            var after := ApplyEvents(calls, true, [Delivery(WebhookRequest("call_started", callId, Some(start)), t1, false),
                                                   Delivery(WebhookRequest("call_ended", callId, Some(end)), t2, false)]);
            && callId in after
            && after[callId].status == Completed
            && after[callId].duration == duration
            && after[callId].phoneNumber == phone
            && after[callId].metadata.language == Some("hi")
  {
    var start := EventData(Some(phone), None, None, Some("hi"), None, None, None, None, None, None);
    var end := EventData(None, None, None, None, None, Some(duration), None, None, None, None);
    var d1 := Delivery(WebhookRequest("call_started", callId, Some(start)), t1, false);
    var d2 := Delivery(WebhookRequest("call_ended", callId, Some(end)), t2, false);
    var mid := ApplyEvent(calls, true, d1.req, t1, false);
    assert [d1, d2][1..] == [d2];
    assert ApplyEvents(calls, true, [d1, d2]) == ApplyEvents(mid, true, [d2]);
    assert Classify("call_started") == CallStartedEvent;
    assert mid == CallStarted(calls, callId, Some(start), t1);
    assert callId in mid && mid[callId].phoneNumber == phone && mid[callId].metadata.language == Some("hi");
    assert [d2][1..] == [];
    assert ApplyEvents(mid, true, [d2]) == ApplyEvent(mid, true, d2.req, t2, false);
    assert Classify("call_ended") == CallEndedEvent;
    assert ApplyEvent(mid, true, d2.req, t2, false) == CallEnded(mid, callId, Some(end), t2);
  }
}
