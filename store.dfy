/** The document store behind the routes: the Call and Callback collections,
    keyed by their unique ids, and whether the connection is up. It offers
    `save` of a new document, `findOneAndUpdate` on a Call by `call_id`, and
    `find().sort({ created_at: -1 }).limit(n)`; `findOne` by `call_id` is a
    map access in the route that uses it. */
module Store {
  import opened Wrappers
  import opened CallModel
  import opened CallbackModel

  /** Why a store operation threw. The routes tell them apart by `error.name`
      (see ErrorName). */
  datatype StoreError = ValidationError | Disconnected | DuplicateKey

  function ErrorName(e: StoreError): string {
    match e
    case ValidationError => "ValidationError"
    case Disconnected => "MongooseError"
    case DuplicateKey => "MongoServerError"
  }

  /** The error names the test-call route treats as "database trouble". */
  predicate IsDatabaseErrorName(name: string) {
    name == "MongoServerError" || name == "MongooseError"
  }

  /** How `save` of a new Call ends: validation runs first, then the write
      needs the connection, then the unique index on `call_id` may refuse it. */
  function CallSaveError(calls: map<string, Call>, connected: bool, c: Call): (e: Option<StoreError>)
    ensures e.None? <==> Validates(c) && connected && c.callId !in calls
  {
    if !Validates(c) then Some(ValidationError)
    else if !connected then Some(Disconnected)
    else if c.callId in calls then Some(DuplicateKey)
    else None
  }

  function CallbackSaveError(callbacks: map<string, Callback>, connected: bool, cb: Callback): (e: Option<StoreError>)
    ensures e.None? <==> CallbackValidates(cb) && connected && cb.callbackId !in callbacks
  {
    if !CallbackValidates(cb) then Some(ValidationError)
    else if !connected then Some(Disconnected)
    else if cb.callbackId in callbacks then Some(DuplicateKey)
    else None
  }

  /** The fields one `findOneAndUpdate` sets; every update in the routes also
      sets `updated_at`. `push` is a `$push` onto the transcript. */
  datatype CallUpdate = CallUpdate(
    status: Option<CallStatus>,
    duration: Option<int>,
    paymentStatus: Option<PaymentStatus>,
    push: Option<TranscriptEntry>)

  /** One record after an update at time `now`: the named fields change, the
      transcript only grows at its end, and id, phone number, metadata and
      creation time stay as they were. */
  function ApplyUpdate(c: Call, u: CallUpdate, now: Time): (r: Call)
    ensures r.callId == c.callId && r.phoneNumber == c.phoneNumber
    ensures r.metadata == c.metadata && r.createdAt == c.createdAt && r.updatedAt == now
    ensures r.status == (if u.status.Some? then u.status.value else c.status)
    ensures r.duration == (if u.duration.Some? then u.duration.value else c.duration)
    ensures r.paymentStatus == (if u.paymentStatus.Some? then u.paymentStatus.value else c.paymentStatus)
    ensures r.transcript == c.transcript + (if u.push.Some? then [u.push.value] else [])
  {
    Call(c.callId, c.phoneNumber,
         u.status.GetOr(c.status),
         u.paymentStatus.GetOr(c.paymentStatus),
         u.duration.GetOr(c.duration),
         if u.push.Some? then c.transcript + [u.push.value] else c.transcript,
         c.metadata, c.createdAt, now)
  }

  /** `findOneAndUpdate({ call_id: id }, u)` on a reachable store: the record
      with that id is updated; no record is created; nothing else changes. */
  function UpdateOne(calls: map<string, Call>, id: string, u: CallUpdate, now: Time): (r: map<string, Call>)
    ensures r.Keys == calls.Keys
    ensures id in calls ==> r[id] == ApplyUpdate(calls[id], u, now)
    ensures forall k :: k in calls && k != id ==> r[k] == calls[k]
  {
    if id in calls then calls[id := ApplyUpdate(calls[id], u, now)] else calls
  }

  lemma UpdateOneKeepsKeyed(calls: map<string, Call>, id: string, u: CallUpdate, now: Time)
    requires CallsKeyed(calls)
    ensures CallsKeyed(UpdateOne(calls, id, u, now))
  {
  }

  /** Records stored under their own ids are pairwise different, so the
      collection holds as many documents as it has ids. */
  lemma {:induction false} CallsCounted(calls: map<string, Call>)
    requires CallsKeyed(calls)
    ensures |calls.Values| == |calls|
    decreases |calls|
  {
    if calls != map[] {
      var k :| k in calls;
      var rest := calls - {k};
      assert CallsKeyed(rest);
      CallsCounted(rest);
      forall v | v in calls.Values
        ensures v in rest.Values + {calls[k]}
      {
        var j :| j in calls && calls[j] == v;
        if j != k {
          assert rest[j] == v;
        }
      }
      forall v | v in rest.Values
        ensures v in calls.Values
      {
        var j :| j in rest && rest[j] == v;
        assert calls[j] == v;
      }
      assert calls[k] in calls.Values;
      assert calls.Values == rest.Values + {calls[k]};
      assert calls[k] !in rest.Values;
      assert calls.Keys == rest.Keys + {k};
    }
  }

  lemma {:induction false} CallbacksCounted(callbacks: map<string, Callback>)
    requires CallbacksKeyed(callbacks)
    ensures |callbacks.Values| == |callbacks|
    decreases |callbacks|
  {
    if callbacks != map[] {
      var k :| k in callbacks;
      var rest := callbacks - {k};
      assert CallbacksKeyed(rest);
      CallbacksCounted(rest);
      forall v | v in callbacks.Values
        ensures v in rest.Values + {callbacks[k]}
      {
        var j :| j in callbacks && callbacks[j] == v;
        if j != k {
          assert rest[j] == v;
        }
      }
      forall v | v in rest.Values
        ensures v in callbacks.Values
      {
        var j :| j in rest && rest[j] == v;
        assert callbacks[j] == v;
      }
      assert callbacks[k] in callbacks.Values;
      assert callbacks.Values == rest.Values + {callbacks[k]};
      assert callbacks[k] !in rest.Values;
      assert callbacks.Keys == rest.Keys + {k};
    }
  }

  class Database {
    var calls: map<string, Call>
    var callbacks: map<string, Callback>
    /** Whether the connection is up; the routes never change it. */
    var connected: bool

    ghost predicate Valid()
      reads this
    {
      CallsKeyed(calls) && CallbacksKeyed(callbacks)
    }

    constructor (connected: bool)
      ensures Valid()
      ensures calls == map[] && callbacks == map[] && this.connected == connected
    {
      calls := map[];
      callbacks := map[];
      this.connected := connected;
    }

    /** `new Call(...).save()` at time `now`. */
    method SaveCall(c: Call, now: Time) returns (err: Option<StoreError>)
      requires Valid()
      modifies this`calls
      ensures Valid()
      ensures err == CallSaveError(old(calls), connected, c)
      ensures calls == if err.None? then old(calls)[c.callId := PreSave(c, now)] else old(calls)
    {
      err := CallSaveError(calls, connected, c);
      if err.None? {
        calls := calls[c.callId := PreSave(c, now)];
      }
    }

    /** `new Callback(...).save()` at time `now`. */
    method SaveCallback(cb: Callback, now: Time) returns (err: Option<StoreError>)
      requires Valid()
      modifies this`callbacks
      ensures Valid()
      ensures err == CallbackSaveError(old(callbacks), connected, cb)
      ensures callbacks == if err.None? then old(callbacks)[cb.callbackId := CallbackPreSave(cb, now)] else old(callbacks)
    {
      err := CallbackSaveError(callbacks, connected, cb);
      if err.None? {
        callbacks := callbacks[cb.callbackId := CallbackPreSave(cb, now)];
      }
    }

    /** `Call.findOneAndUpdate({ call_id: id }, u)`: throws only when the store
      is unreachable; an unknown id is not an error. */
    method UpdateCall(id: string, u: CallUpdate, now: Time) returns (err: Option<StoreError>)
      requires Valid()
      modifies this`calls
      ensures Valid()
      ensures err == if connected then None else Some(Disconnected)
      ensures calls == if connected then UpdateOne(old(calls), id, u, now) else old(calls)
    {
      if !connected {
        return Some(Disconnected);
      }
      UpdateOneKeepsKeyed(calls, id, u, now);
      calls := UpdateOne(calls, id, u, now);
      err := None;
    }
  }

  /** A member of `docs` whose key is largest. */
  method MaxBy<T>(docs: set<T>, created: T -> Time) returns (m: T)
    requires docs != {}
    ensures m in docs
    ensures forall d :: d in docs ==> created(d) <= created(m)
  {
    m :| m in docs;
    var todo := docs - {m};
    while todo != {}
      invariant todo <= docs && m in docs
      invariant forall d :: d in docs && d !in todo ==> created(d) <= created(m)
      decreases todo
    {
      var d :| d in todo;
      if created(d) > created(m) {
        m := d;
      }
      todo := todo - {d};
    }
  }

  /** `r` is an answer of `find().sort({ created_at: -1 }).limit(limit)`:
      `limit` distinct documents of the collection (all of them when there are
      fewer), newest first, and no document left out is newer than one listed.
      Documents with equal creation times may come in any order. */
  ghost predicate IsNewestFirst<T>(docs: set<T>, created: T -> Time, limit: nat, r: seq<T>) {
    && |r| == (if |docs| < limit then |docs| else limit)
    && (forall i :: 0 <= i < |r| ==> r[i] in docs)
    && (forall i, j :: 0 <= i < j < |r| ==> r[i] != r[j])
    && (forall i, j :: 0 <= i < j < |r| ==> created(r[i]) >= created(r[j]))
    && (forall d, i :: d in docs && d !in r && 0 <= i < |r| ==> created(d) <= created(r[i]))
  }

  method NewestFirst<T(==)>(docs: set<T>, created: T -> Time, limit: nat) returns (r: seq<T>)
    ensures IsNewestFirst(docs, created, limit, r)
  {
    r := [];
    var rest := docs;
    while |r| < limit && rest != {}
      invariant rest <= docs
      invariant |rest| + |r| == |docs| && |r| <= limit
      invariant forall i :: 0 <= i < |r| ==> r[i] in docs && r[i] !in rest
      invariant forall d :: d in docs && d !in rest ==> d in r
      invariant forall i, j :: 0 <= i < j < |r| ==> r[i] != r[j]
      invariant forall i, j :: 0 <= i < j < |r| ==> created(r[i]) >= created(r[j])
      invariant forall d, i :: d in rest && 0 <= i < |r| ==> created(d) <= created(r[i])
      decreases |rest|
    {
      var m := MaxBy(rest, created);
      r := r + [m];
      rest := rest - {m};
    }
  }
}
