# Rapid Capital: call records, provider webhook, automation routes and translations

Rapid Capital is a collections platform in which a voice agent phones customers about payments. This project models the core of its backend and one part of its interface:

- **Call records** (`CallModel`): the fields of a Call, its `status` and `payment_status` enumerations, the defaults a new document gets, the required fields, the pre-save hook that stamps `updated_at`, and the uniqueness of `call_id`.
- **Callback records** (`CallbackModel`): the same for Callback and its `callback_id`.
- **The document store** (`Store`): a `Database` object holding both collections (keyed by id) and whether the connection is up. It offers `save`, `findOneAndUpdate` by `call_id`, and `find().sort({ created_at: -1 }).limit(n)`. `findOne` by `call_id` is a map access in `CallsRoutes.FindCall`. The collection invariant is `Database.Valid()`: every record sits under its own id and passed validation.
- **The provider webhook** (`Retell`, POST /api/retell):
  - Events are dispatched by name to four handlers: `call_started`, `call_ended`, `conversation_update` and `function_call`.
  - Each handler's effect on the Call collection is a pure function, and each handler method is proved to have exactly that effect.
  - The reply is 500 exactly when the store is down during `call_started`. That is the one handler whose failure escapes its `catch`.
  - `RetellProperties` proves, over any run of webhook requests:
    - records are never removed;
    - a record's id, phone number, metadata and creation time never change;
    - transcripts only grow at the end;
    - the collection stays keyed by `call_id`.
  - It also proves facts about a single request: an unknown event name changes nothing, and so does any event other than `call_started` for an unknown id.
  - Delivering the same `call_ended` twice in a row gives the same collection as delivering it once.
- **The call routes** (`CallsRoutes`): the list of the newest hundred calls, lookup by id, and the simulated test call with its degraded mode. Also the real call placed through the voice-agent provider and then recorded.
- **The automation routes** (`Webhooks`): the list of the newest hundred callbacks, and the stubbed payment check. Also callback scheduling with validation and relay, and the manual trigger of the automation endpoint.
- **Translations** (`Language`): the interface's language provider. The first language is the stored choice, else English. `t(key)` splits the key at dots, walks the current language's table with optional member access, and returns the key itself when the result is falsy.

Outside inputs are parameters of the model:

- the clock (`now`, one reading per request);
- the coin flip `Math.random() > 0.5` (`paidDraw`);
- the provider's answer (`ProviderOutcome`);
- the answer of the automation endpoint (`RelayOutcome`, `relayFails`);
- the environment settings (`Env`, `n8nUrl`);
- the stored language (`stored`).

Absent request fields are `None`. JavaScript's `x || fallback` is `Wrappers.OrElse` for texts and `Wrappers.OrZero` for numbers.

## Model

| member | source | states |
|---|---|---|
| `Wrappers.OrElse` | backend/routes/retell.js:57-62 | JavaScript's text-or-fallback on an optional text: the text when present and non-empty, else the fallback |
| `Wrappers.OrZero` | backend/routes/retell.js:85 | JavaScript's number-or-zero on an optional number: the number when present, else 0 |
| `CallModel.ParseStatus` | backend/models/Call.js:13-17 | the status enumeration accepts a text only as the stored name of a status |
| `CallModel.StatusNamesRoundTrip` | backend/models/Call.js:13-17 | every status's stored name is accepted and reads back as that status |
| `CallModel.ParsePayment` | backend/models/Call.js:18-22 | the payment enumeration accepts a text only as the stored name of a payment status |
| `CallModel.PaymentNamesRoundTrip` | backend/models/Call.js:18-22 | every payment status's stored name reads back as that status |
| `CallModel.NewCall` | backend/models/Call.js:3-45 | a new Call keeps the given fields; status defaults to initiated, payment status to unknown, duration and retry count to 0; both times are the construction time |
| `CallModel.PreSave` | backend/models/Call.js:47-50 | saving stamps `updated_at` with the save time and changes nothing else |
| `CallbackModel.ParseCallbackStatus` | backend/models/Callback.js:25-29 | the callback status enumeration accepts a text only as the stored name of a status |
| `CallbackModel.CallbackStatusNamesRoundTrip` | backend/models/Callback.js:25-29 | every callback status's stored name reads back as that status |
| `CallbackModel.NewCallback` | backend/models/Callback.js:3-38 | a new Callback keeps the given fields; reason defaults to the empty text, status to scheduled; both times are the construction time |
| `CallbackModel.CallbackPreSave` | backend/models/Callback.js:40-43 | saving stamps `updated_at` with the save time and changes nothing else |
| `Store.CallSaveError` | backend/models/Call.js:4-12 | a Call save succeeds exactly when id and phone number are non-empty, the store is reachable and the id is not taken |
| `Store.CallbackSaveError` | backend/models/Callback.js:4-20 | a Callback save succeeds exactly when the three required texts are non-empty, the time is a date, the store is reachable and the id is not taken |
| `Store.ApplyUpdate` | backend/routes/retell.js:104-110 | an update sets only the named fields and `updated_at`, appends a pushed entry at the transcript's end, and keeps id, phone, metadata and creation time |
| `Store.UpdateOne` | backend/routes/retell.js:68-74 | `findOneAndUpdate` by `call_id` updates the matching record, creates none, and leaves every other record as it was |
| `Store.UpdateOneKeepsKeyed` | backend/models/Call.js:4-8 | an update keeps every record under its own unique `call_id` |
| `Store.Database.SaveCall` | backend/routes/calls.js:72-87 | `save` stores the pre-saved Call under its id exactly when the save succeeds, else changes nothing; the collection stays keyed |
| `Store.Database.SaveCallback` | backend/routes/webhooks.js:77-86 | `save` stores the pre-saved Callback under its id exactly when the save succeeds, else changes nothing |
| `Store.Database.UpdateCall` | backend/routes/retell.js:81-88 | `findOneAndUpdate` fails only when the store is unreachable; otherwise it applies the update by id |
| `Store.CallsCounted` | backend/models/Call.js:4-8 | with every Call stored under its own unique id, the collection holds as many documents as ids |
| `Store.CallbacksCounted` | backend/models/Callback.js:4-8 | with every Callback stored under its own unique id, the collection holds as many documents as ids |
| `Store.NewestFirst` | backend/routes/calls.js:11 | `find().sort({ created_at: -1 }).limit(n)`: min(n, size) distinct documents of the collection, newest first, none left out newer than one listed |
| `CallsRoutes.ListCalls` | backend/routes/calls.js:9-23 | 500 exactly when the store is unreachable, else the newest hundred calls (all of them when fewer are stored), newest first |
| `CallsRoutes.FindCall` | backend/routes/calls.js:26-46 | 500 exactly when unreachable, 404 exactly when no record has the id, else 200 with the record with that `call_id` |
| `CallsRoutes.TestCallId` | backend/routes/calls.js:66 | a test call's id is `test_` followed by the decimal text of the clock reading, which parses back to that reading (after a minus sign if negative) |
| `CallsRoutes.TestCallIdsDistinct` | backend/routes/calls.js:73 | test calls made at different times get different ids |
| `CallsRoutes.TestCallRecord` | backend/routes/calls.js:72-85 | the simulated call is completed, paid, 120 seconds long, with one greeting line spoken by the agent |
| `CallsRoutes.TestCall` | backend/routes/calls.js:49-113 | 400 without a phone number; when unreachable, success with a warning and nothing stored; otherwise the record is stored, or on a duplicate id success with the store's warning |
| `CallsRoutes.ProviderRequestFor` | backend/routes/calls.js:138-155 | the provider gets the API key as bearer token, the phone number, the agent id and the source `rapid-capital-platform`; from-number falls back to the configured one, then to +1234567890; customer id falls back to the empty text |
| `CallsRoutes.CreatedRecord` | backend/routes/calls.js:160-170 | the recorded call is initiated, unknown payment, language hi, retry count 0, with the request's customer id or the empty text |
| `CallsRoutes.CreateCall` | backend/routes/calls.js:116-188 | 400 exactly without a phone number, 200 exactly when the call is recorded; 500 without API key or agent id, nothing sent; a provider error is 500; otherwise the record is saved under the provider's id, or 500 when the save fails |
| `Webhooks.ListCallbacks` | backend/routes/webhooks.js:8-22 | 500 exactly when the store is unreachable, else the newest hundred callbacks (all of them when fewer are stored), newest first |
| `Webhooks.CheckPayment` | backend/routes/webhooks.js:25-62 | always succeeds; paid exactly when the coin flip says so; amount defaults to 0; relays the request's fields exactly when an endpoint is configured |
| `Webhooks.RelayFailureInvisible` | backend/routes/webhooks.js:31-43 | a failing relay leaves the payment check's answer unchanged |
| `Webhooks.CallbackId` | backend/routes/webhooks.js:78 | a callback's id is `cb_` followed by the decimal text of the clock reading, which parses back to that reading (after a minus sign if negative) |
| `Webhooks.CallbackIdsDistinct` | backend/routes/webhooks.js:78 | callbacks scheduled at different times get different ids |
| `Webhooks.ScheduledCallback` | backend/routes/webhooks.js:77-84 | the stored callback is scheduled, carries the request's ids and parsed time, and its reason defaults to "Customer requested callback" |
| `Webhooks.ScheduleCallback` | backend/routes/webhooks.js:65-118 | 400 exactly without the three required fields; 500 when the save fails, nothing stored; otherwise stored under its id, relayed exactly when configured, and the reply names the id and time |
| `Webhooks.TriggerPayload` | backend/routes/webhooks.js:131-135 | the posted body has action and timestamp defaults, and the request's own fields override them |
| `Webhooks.TriggerN8n` | backend/routes/webhooks.js:121-150 | 400 exactly when no endpoint is configured, nothing sent; otherwise the payload is posted and the reply is the endpoint's answer or 500 with its error |
| `Retell.Classify` | backend/routes/retell.js:15-30 | each of the four event names selects its own handler, and every other name selects none |
| `Retell.VerifyPayment` | backend/routes/retell.js:144-151 | paid or unpaid by the coin flip, amount defaults to 0; absent parameters throw |
| `Retell.CallStarted` | backend/routes/retell.js:53-76 | inserts a fresh in-progress record (phone from phone_number, then from_number, then "unknown"; customer "", language "hi"); else marks an existing record in progress; no other record changes |
| `Retell.CallEnded` | backend/routes/retell.js:79-92 | marks a known call completed with the reported duration or 0; unknown id or missing data change nothing; no other record changes |
| `Retell.ConversationUpdate` | backend/routes/retell.js:95-115 | with a non-empty fragment, appends one entry (speaker defaults to "Unknown") at the end of that call's transcript; otherwise nothing changes |
| `Retell.FunctionCall` | backend/routes/retell.js:118-141 | `check_payment` with parameters stores the coin flip's verdict on the call and changes nothing else; every other function changes nothing |
| `Retell.WebhookOutcome` | backend/routes/retell.js:8-50 | the webhook answers 500 exactly for `call_started` while the store is unreachable |
| `Retell.HandleCallStarted` | backend/routes/retell.js:53-76 | the save-then-update handler has exactly the effect of `CallStarted`, and fails exactly when the store is unreachable |
| `Retell.HandleCallEnded` | backend/routes/retell.js:79-92 | the handler has exactly the effect of `CallEnded`, and none when unreachable |
| `Retell.HandleConversationUpdate` | backend/routes/retell.js:95-115 | the handler has exactly the effect of `ConversationUpdate`, and none when unreachable |
| `Retell.HandleFunctionCall` | backend/routes/retell.js:118-141 | the handler has exactly the effect of `FunctionCall`, and none when unreachable |
| `Retell.HandleWebhook` | backend/routes/retell.js:8-50 | the store changes as `ApplyEvent` says; the reply is `WebhookOutcome`; the body is relayed exactly when the reply is 200 and an endpoint is configured |
| `RetellProperties.EvolvesTransitive` | backend/routes/retell.js:68-74 | a record that evolved twice has evolved: same identity, and its first transcript is a prefix of the last |
| `RetellProperties.EventKeepsKeyed` | backend/routes/retell.js:15-30 | every webhook request keeps each Call under its own unique, valid `call_id` |
| `RetellProperties.EventEvolves` | backend/routes/retell.js:15-30 | a webhook request removes no record and changes no record's id, phone, metadata or creation time; transcripts only grow |
| `RetellProperties.UnknownEventChangesNothing` | backend/routes/retell.js:28-29 | an unhandled event name leaves the collection unchanged |
| `RetellProperties.UnknownIdUntouched` | backend/routes/retell.js:68-74 | apart from `call_started`, an event for an unknown id changes nothing |
| `RetellProperties.CallEndedIdempotent` | backend/routes/retell.js:79-92 | delivering `call_ended` twice equals delivering it once, at the later time |
| `RetellProperties.CallEndedReplaySameOutcome` | backend/routes/retell.js:81-88 | a replayed `call_ended` leaves the same status and duration |
| `RetellProperties.RunEvolves` | backend/routes/retell.js:8-50 | over any run of webhook requests, records are never removed, identity is preserved, transcripts only grow, and the collection stays keyed |
| `RetellProperties.StartThenEnd` | backend/routes/retell.js:53-92 | `call_started` then `call_ended` for a fresh id leaves a completed record with the given phone, language and duration |
| `Decimal.ParsePrinted` | backend/routes/calls.js:66 | the decimal text of a clock reading parses back to that reading |
| `Decimal.IntTextInjective` | backend/routes/webhooks.js:78 | distinct integers print as distinct texts |
| `Language.Get` | frontend/src/context/LanguageContext.jsx:125 | `value?.[k]` gives nothing on nothing, and on an object the member or nothing |
| `Language.GetCharAt` | frontend/src/context/LanguageContext.jsx:125 | on a text, a canonical position name gives the one-character text there |
| `Language.JoinSplit` | frontend/src/context/LanguageContext.jsx:122 | joining the pieces of `split('.')` back with dots gives the key |
| `Language.SplitJoin` | frontend/src/context/LanguageContext.jsx:122 | splitting dot-joined, dot-free segments gives those segments back |
| `Language.ResolveSnoc` | frontend/src/context/LanguageContext.jsx:124-126 | each turn of the walk is one more member access |
| `Language.ResolveAppend` | frontend/src/context/LanguageContext.jsx:124-126 | walking a path in two parts is walking the whole path |
| `Language.MissingSegmentGivesKey` | frontend/src/context/LanguageContext.jsx:121-128 | a segment missing from an object on the way makes `t` return the key |
| `Language.UnknownLanguageGivesKey` | frontend/src/context/LanguageContext.jsx:123-127 | a language without a table makes every key return itself |
| `Language.LookupOutcomes` | frontend/src/context/LanguageContext.jsx:127 | a path ending at "" returns the key; one ending at a non-empty text or an object returns that value |
| `Language.InitialLanguage` | frontend/src/context/LanguageContext.jsx:14-16 | the stored language if non-empty, else "en" |
| `Language.LanguageProvider.constructor` | frontend/src/context/LanguageContext.jsx:14-16 | the provider starts with the initial language |
| `Language.LanguageProvider.SetLanguage` | frontend/src/context/LanguageContext.jsx:14 | `setLanguage` makes the given language current |
| `Language.LanguageProvider.T` | frontend/src/context/LanguageContext.jsx:121-128 | the loop gives the value at the key's dotted path in the current language's table if truthy, else the key |
| `Language.NavHomeTranslated` | frontend/src/context/LanguageContext.jsx:22-30 | `t('nav.home')` is "Home" in English and "होम" in Hindi |
| `Language.NavGivesSubtree` | frontend/src/context/LanguageContext.jsx:121-128 | `t('nav')` returns the whole nav subtree, not the key |

## Left out

- Console logging, HTTP framing and the exact reply texts are not modelled. Replies are datatypes named after their status codes.
- Dates are not modelled as ISO text. Every `new Date()` and `Date.now()` of one request is the same integer `now`. The source reads the clock several times, so two readings could differ by a millisecond.
- The relays to the automation endpoint are not modelled as HTTP. Each route returns what it would post, or says whether it posts. A failing relay is the `relayFails` parameter, which the routes ignore, as the source's `catch` does.
- `retell_data` in the create-call reply is not modelled. The provider's answer is reduced to its `call_id`, or an error with details.
- The store's connection is a single `connected` flag. Buffering, timeouts and reconnection are not modelled.
- Errors on a write are reduced to three kinds: validation, unreachable store and duplicate key, checked in that order.
- Enum validation on `findOneAndUpdate` is not modelled. The routes only ever set enumeration members.
- `metadata.direction` from `call_started` is not kept. The Call schema has no such path, and strict schemas drop unknown paths.
- A missing `call_id` in a webhook body is modelled as the empty text. Mongoose would strip an `undefined` filter value, and the fallback update could then match an arbitrary record. This is not modelled.
- Values of the wrong JavaScript type (a number where a text is expected, a `NaN` duration) are not modelled. Request fields are optional texts and optional integers.
- `CallsRoutes.TestCall`: the route's own 500 path is unreachable in the model. A phone number that is present and non-empty always passes validation, so every save error is a store error.
- The parsing of `callback_time` by `new Date(...)` is an input (`ScheduleRequest.callbackDate`). `None` stands for an invalid date, which the schema's cast rejects.
- The translation walk covers only own members of the table's objects, plus `length` and positions of a text. Prototype members of objects and texts (`constructor`, `toString`, ...) are not modelled. Positions of a text are modelled as code points, not UTF-16 code units.
- The interface's storage of the chosen language in `localStorage`, the React context machinery and the `useLanguage` guard are not modelled. The stored value is the constructor's parameter.
- `handleFunctionCall` only logs a `schedule_callback` request. The model therefore changes nothing for it.
- The server wiring, the provider configuration helper and the interface pages are not part of this model.
