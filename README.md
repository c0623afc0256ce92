# iFood integration engine — a Dafny model

This project models the order-synchronisation core of a FastAPI backend that takes part in the
iFood marketplace. The backend's three core pieces are:

- **A token cache.** `IFoodClient` keeps an OAuth token and its expiry. It reuses the token until
  five minutes before the expiry, and otherwise refreshes it.
- **An inbound event processor.** `process_ifood_event` and `save_order_from_ifood` deduplicate
  events by `event_id` and derive the event type. A `PLACED` event creates an order; other status
  events and `ASSIGN_DRIVER` update the order with that `ifood_id`. The event record ends up
  marked processed.
- **The polling cycle and its controls, and the order actions.**
  - One polling cycle fetches events, processes them in order, acknowledges the ids that are
    present, and resets or increments the polling-status record.
  - `start_polling` and `stop_polling` toggle the polling flag and task.
  - The seven direct actions (confirm, start preparation, ready, dispatch, cancel, start and end
    picking) run a lookup and an optional status guard, then a marketplace call, and update the
    stored order only when the call succeeded.

The small pure helpers of the server are modelled too: `serialize_doc`, the `list_orders` query
builder, the `update_item` null filter and the orders-by-hour buckets.

## How it is modelled

| module | file | contents |
|---|---|---|
| `Wrappers` | wrappers.dfy | `Option`, `Result` |
| `Text` | text.dfy | Python's `split`/`join`/`[-1]`, `str(n)` and `zfill` on `seq<char>` |
| `Models` | models.dfy | the enums, the `Order` and `PollingStatus` defaults, `APIResponse`, `CANCELLATION_REASONS` |
| `Client` | client.dfy | `class IFoodClient` with the two token fields; pure mappings from HTTP replies to results |
| `Events` | events.dfy | the pure specification of `process_ifood_event`, `save_order_from_ifood` and a batch of events |
| `Cycle` | cycle.dfy | the ack batch, one polling cycle as a function, the polling-status upserts and view |
| `Lookup` | lookup.dfy | the first-match search behind `find_one` / `update_one` |
| `Actions` | actions.dfy | the reason lookup, the guards, one action endpoint as a function, and its properties |
| `Helpers` | helpers.dfy | `serialize_doc`, the `list_orders` query, `update_item`, `get_orders_by_hour` |
| `Server` | server.dfy | `class Backend`: the collections, the call log and the polling globals, with imperative methods proved against the functions above |

The model represents the outside world like this:

- **Remote calls.** Each marketplace call is a `Reply<T>` parameter: either
  `Response(status, body, text)` or `Failure(message)` for a transport error. As with httpx's
  `raise_for_status`, only a 2xx status is a success.
- **Database collections.** The orders collection is a `seq<Order>` in insertion order, because
  `update_one` / `find_one` hit the first match and `ifood_id` carries no unique index. The events
  collection is a `map` keyed by the (optional) `event_id`, because that index is unique.
- **The call log.** `sent: seq<Call>` records every marketplace call the backend makes. This
  makes "no call" and "ack only after processing" statable. A cycle's `PollCall` stands for the
  request `Cycle.CyclePollRequest` describes.
- **Time, uuids and merchants.** Time is integer seconds (`now`). Fresh uuids and the configured
  merchant id are inputs.
- **Python truthiness.** It is modelled explicitly. `Present(o)` means `Some` and non-empty.

The model follows the code as written, including these easily missed behaviours:

- **Only two actions have a status guard.** Only confirm (requires `PLACED`) and cancel (rejects
  `CANCELLED`) are guarded. There is no transition graph, and terminal states are not enforced: a
  `CONCLUDED` order can be dispatched again (`Actions.DispatchAfterConcluded`).
- **Status events always apply.** Inbound status events set the status they name whatever the
  current status is. A `CONFIRMED` event sets no `confirmed_at`.
- **The ack batch is not limited to processed events.** It holds every present id of the fetched
  events, including redelivered and duplicate ids.
- **There is no retry.** The code has no 401 retry, no 429 handling and no back-off.
- **A failed details request loses the order.** When the details request of a new `PLACED` event
  fails with anything but a 404, the exception is only logged. The event is still marked processed
  and its id acknowledged, so the order is never saved and never requested again
  (`Cycle.PlacedLostOnDetailsError`).
- **A missing order still saves a stub.** A 404 on the order details is turned into an error
  dictionary that `save_order_from_ifood` stores as a stub order. The stub has no `ifood_id` and
  an empty display id (`Events.NotFoundDetailsSavedAsStub`).

## Model

| member | source | states |
|---|---|---|
| Text.Split | backend/server.py:802 | Python `str.split(sep)`: at least one part, and no part contains the separator |
| Text.JoinSplit | backend/server.py:802 | joining the parts of a split with the same separator gives back the string |
| Text.SplitJoin | backend/ifood_client.py:144-147 | splitting a join of separator-free parts gives back the parts |
| Text.LastSegment | backend/server.py:802 | `split("/")[-1]` has no `/`; it is the whole string exactly when there is no `/`; otherwise it is what follows the last `/` |
| Text.DecimalString | backend/server.py:763 | `str(n)` of a natural number is non-empty |
| Text.ZFill | backend/server.py:759 | `zfill` puts zeros on the left up to the width, followed by the text itself, and never shortens |
| Text.TwoDigitKey | backend/server.py:759 | `str(n).zfill(2)` for n < 100 is the two digits of n |
| Text.TwoDigitKeyInjective | backend/server.py:759-764 | distinct hours give distinct bucket keys |
| Models.ParseStatus | backend/models.py:14-24 | parsing a wire string yields the status with that wire string, or none when no status has it |
| Models.StatusesEnumerated | backend/models.py:14-24 | there are exactly ten statuses, all listed, with pairwise distinct wire strings |
| Models.StatusWireRoundTrip | backend/models.py:14-24 | every status parses back from its wire string |
| Models.StatusEventsAreStatuses | backend/models.py:14-69 | the event types the processor maps to a status (PLACED, CONFIRMED, CANCELLED, DISPATCHED, CONCLUDED) are all status values |
| Models.EventTypesNamingStatuses | backend/models.py:14-69 | the event types naming a status are exactly those five plus PREPARATION_STARTED and READY_TO_PICKUP |
| Models.FreshOrder | backend/models.py:139-174 | a fresh order is PLACED, DELIVERY, FOOD, IMMEDIATE, with no items, no driver, no timestamps and no cancellation data |
| Models.FreshPollingStatus | backend/models.py:308-316 | a fresh polling status has no events, no errors, no last error, is active and "connected" |
| Models.DefaultResponse | backend/models.py:340-344 | a default `APIResponse` has success true and no error, message or data |
| Models.CancellationCodes | backend/models.py:363-374 | the table has ten entries with codes "501" to "510" in order, pairwise distinct |
| Client.Authenticated | backend/ifood_client.py:47-105 | missing credentials fail before any request and leave the cache alone; the cached token is answered exactly when a token and an expiry exist and now < expiry − 300 s; a cache hit hands back the cached token and its stored expiry; a 2xx refresh hands back and stores the granted token, the grant's expiresIn (default 3600) and now + expiresIn; a rejected or failed refresh leaves both fields unchanged |
| Client.RefreshedTokenIsReused | backend/ifood_client.py:62-90 | after a refresh, a call within expiresIn − 300 s is a cache hit with no request |
| Client.CacheHitImpliesValid | backend/ifood_client.py:117-119 | a cache hit implies `token_valid`; valid-but-not-hit is exactly the last 300 s before expiry |
| Client.ValidTokenStillRefreshed | backend/ifood_client.py:62-68 | a token two minutes from expiry is reported valid yet is still refreshed |
| Client.IFoodClient.constructor | backend/ifood_client.py:26-31 | the client starts with the configured credentials and an empty token cache |
| Client.IFoodClient.Authenticate | backend/ifood_client.py:47-105 | the imperative `authenticate` returns and stores exactly what `Authenticated` prescribes for the old fields |
| Client.IFoodClient.GetAuthStatus | backend/ifood_client.py:115-128 | `has_credentials` iff both id and secret are set; `has_token` iff a token is set; `token_valid` iff a token and an expiry exist and now < expiry, with no margin |
| Client.PollRequest | backend/ifood_client.py:132-155 | a bearer Authorization header; `x-polling-merchants` only when a merchant id is set; `categories` and `groups` params each present only when non-empty |
| Client.PollCategoriesRecoverable | backend/ifood_client.py:144-147 | the categories parameter is the comma join of the categories, so splitting it gives them back |
| Client.PollEvents | backend/ifood_client.py:156-166 | 204 gives no events; another 2xx gives the body; anything else is an error |
| Client.Acknowledge | backend/ifood_client.py:168-186 | the acknowledgement succeeds exactly on a 2xx |
| Client.OrderDetails | backend/ifood_client.py:188-206 | a 2xx gives the body; a 404 gives the not-found dictionary instead of an error; any other status or a transport failure is an error |
| Client.ActionOutcome | backend/ifood_client.py:228-353 | success exactly on a 2xx (also the picking calls at lines 607-644); a 202 on confirm is "confirmation_pending", a 202 on cancellation "cancellation_pending", any other 2xx the action's done status; failures carry the error text |
| Events.EventTypeOf | backend/server.py:802 | the type is `code` when present; otherwise the text after the last `/` of `fullCode`, and "" for an empty `fullCode` |
| Events.Prefix | backend/server.py:912 | `s[:n]` has length min(n, \|s\|) and is a prefix of s |
| Events.MapItems | backend/server.py:893-904 | one stored item per remote item, in order |
| Events.OrderFromIfood | backend/server.py:888-949 | the saved order has the new uuid, the remote id, display id defaulting to the first 8 characters of the remote id, DELIVERY/FOOD/IMMEDIATE defaults, items with quantity defaulting to 1, status PLACED and no timestamps |
| Events.SavedOrderHasModelDefaults | backend/server.py:909-917 | without type, channel or timing, the saved order agrees with the `Order` model's defaults |
| Events.NotFoundDetailsSavedAsStub | backend/server.py:826-833 | a 404 on the details stores a stub order with no `ifood_id` and an empty display id |
| Events.EventStatus | backend/server.py:835-869 | exactly CONFIRMED, CANCELLED, DISPATCHED and CONCLUDED name a status, and it is the status with that wire string |
| Events.SetStatus | backend/server.py:835-869 | the status and `updated_at` are set, plus the matching timestamp for CANCELLED, DISPATCHED and CONCLUDED; nothing else changes |
| Events.SetDriver | backend/server.py:871-879 | ASSIGN_DRIVER sets `driver` (an empty object when absent) and `updated_at`, and nothing else |
| Events.FirstWithIfoodId | backend/server.py:835-879 | the update hits the first order with that `ifood_id`, or none when no order has it |
| Events.UpdateOrders | backend/server.py:835-879 | only the first order with the event's `ifood_id` changes, by `SetStatus` or `SetDriver`; other types and unknown ids change nothing |
| Events.ProcessedRecord | backend/server.py:882-885 | the stored record ends processed, with `processed_at` now |
| Events.ProcessEvent | backend/server.py:799-885 | a stored `event_id` leaves everything unchanged; otherwise the record is stored processed, PLACED fetches details and adds the order when they come back, other types update orders and make no call |
| Events.PlacedAddsOneOrder | backend/server.py:826-833 | a new PLACED event whose details arrive appends exactly one PLACED order and keeps the others |
| Events.RedeliveryIgnored | backend/server.py:806-810 | processing an event whose id was just processed changes nothing |
| Events.BatchRecordsEveryEvent | backend/server.py:961-963 | after a batch every event id is stored, old records are untouched, and all records stay processed |
| Events.KnownBatchIgnored | backend/server.py:806-810 | a batch of already stored ids changes nothing |
| Events.BatchIdempotent | backend/server.py:961-963 | processing a redelivered batch again leaves the store as the first pass left it |
| Cycle.AckIds | backend/server.py:967-969 | the batch holds only non-empty ids of the fetched events, no more entries than events |
| Cycle.AckIdsConcat | backend/server.py:969 | the batch of a concatenation is the concatenation of the batches, so fetch order is kept |
| Cycle.AckIdsCount | backend/server.py:969 | the batch has one entry per event carrying an id, duplicates included |
| Cycle.AckIdsAllPresent | backend/server.py:969 | when every event has an id, the batch is exactly those ids in fetch order |
| Cycle.CyclePollRequest | backend/server.py:960 | a cycle polls with `categories=["ALL"]`: the only parameter is categories "ALL", with the bearer token and the merchant header when a merchant id is set |
| Cycle.RunCycle | backend/server.py:956-971 | the fetch comes first; a fetch error processes nothing; otherwise every event is processed, and only then the ids, if any, are acknowledged; an ack failure is the cycle's error, with the acknowledge error's text |
| Cycle.RefetchChangesNothing | backend/server.py:956-971 | a cycle that refetches an already processed batch changes no order and no event record |
| Cycle.PlacedLostOnDetailsError | backend/server.py:826-833 | a new PLACED event whose details request fails (other than 404) is marked processed and acknowledged but saves no order; refetched, it requests no details and still saves none |
| Cycle.RecordSuccess | backend/server.py:974-985 | success sets `events_received`, `errors_count` 0, no `last_error`, active, "connected", `last_poll_at` now |
| Cycle.RecordFailure | backend/server.py:990-1003 | a failure increments `errors_count` (from 0 when absent), sets `last_error` and "error", and leaves `is_active` alone |
| Cycle.RecordStopped | backend/server.py:1040-1044 | stop sets `is_active` false and "disconnected" and keeps every other field: merchant, last poll, events received and the error fields |
| Cycle.ErrorsCountSinceSuccess | backend/server.py:974-1003 | after a success, `errors_count` equals the number of failed cycles since, and `last_error` is the latest error |
| Cycle.SuccessMatchesFreshStatus | backend/server.py:974-985 | a successful empty cycle leaves the same counters as a fresh `PollingStatus` |
| Cycle.StatusView | backend/server.py:1050-1070 | every field of the stored record (merchant id included, `_id` projected away) plus `polling_active`; without a record, defaults derived from the flag |
| Actions.FirstDescription | backend/server.py:318-321 | `next(...)` yields the description of the first entry with the code, or the default when none has it |
| Actions.ReasonForLookup | backend/server.py:318-321 | a table code yields its own description (codes are distinct); any other code yields "Motivo não especificado" |
| Actions.DefaultCodeReason | backend/server.py:302-321 | the default code "501" yields "Problemas de sistema" |
| Lookup.FirstIndex | backend/server.py:196-198 | the first element with the key, with no earlier element having it, or none when no element has it |
| Lookup.SameKeysSameIndex | backend/server.py:196-198 | the lookup depends only on the keys, so an update that keeps every id finds the same order again |
| Actions.FindById | backend/server.py:196-198 | the lookup finds the first order with the internal id, or none |
| Actions.Guard | backend/server.py:200-309 | an action is refused exactly when confirm meets a non-PLACED order or cancel meets a CANCELLED one |
| Actions.Applied | backend/server.py:208-333 | the order gets the action's status (picking: lines 567-601), `updated_at`, and its own timestamp (confirm, preparation, dispatch, cancel) or code and reason (cancel); id, remote id and items are kept |
| Actions.RunAction | backend/server.py:194-333 | for every action endpoint, picking included (lines 560-607): a missing order is 404 and a refused guard 400, both with no call and no change; otherwise exactly one call is sent; a failure returns `success=False` with orders unchanged; success updates that order only |
| Actions.ActionTouchesOneOrder | backend/server.py:209-217 | an action changes no order with another id and keeps every id |
| Actions.SucceededAction | backend/server.py:194-333 | a successful response means the order was found, passed its guard, the call succeeded and the order was updated |
| Actions.ConfirmOnlyFromPlaced | backend/server.py:196-221 | confirm makes a call exactly for an existing PLACED order; success leaves it CONFIRMED with `confirmed_at` now |
| Actions.CancelTwiceRefused | backend/server.py:308-309 | after a successful cancellation, cancelling again is a 400 "Pedido já cancelado" with no call |
| Actions.CancelRefusedWhenCancelled | backend/server.py:308-309 | cancel on a stored CANCELLED order is a 400 "Pedido já cancelado", with no call and no change |
| Actions.CancelRecordsReason | backend/server.py:318-333 | a successful cancel stores CANCELLED, `cancelled_at`, the code, and the table's description or the default |
| Actions.DispatchAfterConcluded | backend/server.py:276-298 | dispatch has no guard: a CONCLUDED order is dispatched again when the call succeeds |
| Helpers.SerializeDoc | backend/server.py:76-84 | `None` stays `None`; otherwise `_id` is dropped and every datetime becomes its ISO text, other values unchanged |
| Helpers.SerializedIdempotent | backend/server.py:76-84 | serializing a serialized document changes nothing |
| Helpers.BuildOrdersQuery | backend/server.py:139-153 | a key per given filter with its wire value; `created_at` carries `$gte` and/or `$lte` exactly for the given dates |
| Helpers.QuerySelectsFiltered | backend/server.py:139-155 | the query matches an order exactly when it satisfies every given filter |
| Helpers.DropNulls | backend/server.py:422 | the filtered update keeps exactly the non-null fields, with their values |
| Helpers.DropNullsEmpty | backend/server.py:422-425 | the update is empty exactly when every submitted field is null |
| Helpers.FindItem | backend/server.py:429-432 | `update_one` hits the first item with the id |
| Helpers.UpdateItem | backend/server.py:419-443 | an all-null update is a 400 that changes nothing; no matching item is a 404; otherwise the non-null fields and `updated_at` are set on that item only |
| Helpers.UpdateStoresFields | backend/server.py:422-432 | an update stores every non-null field, stamps `updated_at` and keeps the other fields |
| Helpers.FalseIsNotDropped | backend/server.py:422 | `available=False` is not null, so it is stored |
| Helpers.HourKey | backend/server.py:759 | `str(h).zfill(2)` is the two characters of h's tens and units digits |
| Helpers.EmptyBuckets | backend/server.py:759 | the 24 buckets "00" to "23" start at 0 |
| Helpers.Increment | backend/server.py:764 | one increment raises the order's own bucket by one and no other |
| Helpers.OrdersByHour | backend/server.py:750-770 | each bucket counts the orders created in that hour; orders whose `created_at` does not parse are skipped |
| Helpers.BucketsCountParsed | backend/server.py:761-768 | the 24 counts add up to the number of orders whose `created_at` parses |
| Server.ForcePollResponse | backend/server.py:1090-1097 | success with the event count and the message "Polling forçado: N eventos processados", or the error |
| Server.Backend.constructor | backend/server.py:70-71 | empty collections, no polling record, polling inactive |
| Server.Backend.SaveOrderFromIfood | backend/server.py:888-949 | appends exactly `OrderFromIfood` of the details and touches nothing else |
| Server.Backend.ProcessIfoodEvent | backend/server.py:799-885 | the new state is `ProcessEvent` of the old one, and every stored record remains processed |
| Server.Backend.PollCycle | backend/server.py:956-971 | the new state and the outcome are those of `RunCycle`; the polling flags and record are untouched |
| Server.Backend.PollingLoopStep | backend/server.py:955-1003 | when inactive nothing changes; otherwise a cycle, then the success or failure upsert of the record; `polling_active` is never changed |
| Server.Backend.ForcePoll | backend/server.py:1073-1097 | a cycle with `ForcePollResponse` of its outcome; the polling record is not written |
| Server.Backend.StartPolling | backend/server.py:1009-1020 | polling ends active; a task is created only when it was inactive; the message says which |
| Server.Backend.StopPolling | backend/server.py:1023-1046 | polling ends inactive with no task and the record is "disconnected", `is_active` false |
| Server.Backend.GetPollingStatus | backend/server.py:1049-1070 | the answer is `StatusView` of the stored record and the flag: each stored field (merchant id, connection status, last poll, events received, errors) plus `polling_active`, or the flag-derived defaults when no record exists |
| Server.Backend.PerformAction | backend/server.py:194-333 | the response and the new state are `RunAction` of the old state |
| Server.Backend.ConfirmOrder | backend/server.py:193-221 | `RunAction` with confirm |
| Server.Backend.StartOrderPreparation | backend/server.py:224-247 | `RunAction` with start-preparation (no guard) |
| Server.Backend.MarkOrderReady | backend/server.py:250-272 | `RunAction` with ready (no guard) |
| Server.Backend.DispatchOrder | backend/server.py:275-298 | `RunAction` with dispatch (no guard) |
| Server.Backend.CancelOrder | backend/server.py:301-338 | `RunAction` with cancellation and the given code |
| Server.Backend.StartPicking | backend/server.py:560-582 | `RunAction` with start-separation (no guard) |
| Server.Backend.EndPicking | backend/server.py:585-607 | `RunAction` with end-separation (no guard) |

## Left out

- HTTP transport: URLs, the JSON bodies sent, `_get_http_client`'s lazy client replacement and `close`. Each remote call is a `Reply` parameter.
- The `authenticate` that every gateway call runs through `_get_headers`: the token refresh inside a poll, ack, details or action call is not threaded into the token cache. A failure there is one of the call's `Failure` outcomes.
- The wording of exceptions: an error's text is the reply's text or the transport message, not httpx's exact `str(e)` (for example, the "Erro de autenticação: …" prefix is kept only as `Client.AuthErrorMessage`).
- MongoDB mechanics: `find`/`sort`/`skip`/`limit`, `count_documents`, aggregation pipelines, index creation. The unique `event_id` index is taken as given by keying the events map on it.
- Database failures, and exceptions raised while processing one event inside a cycle: the model assumes inserts and updates succeed.
- Concurrency: `asyncio.create_task`, task cancellation, `sleep(30)`, the `while` of `polling_loop`, and any interleaving of `force_poll` with the loop. One iteration is a method. `Server.Backend.PollingLoopStep` models one turn of that `while`.
- Clock reads: the several `datetime.now()` of one call are the same `now`; `isoformat` is an `iso` parameter of `Helpers.SerializeDoc` and of the query and item helpers.
- UUID generation: the record and order uuids are inputs (`EventEnv`).
- Floating point and money: prices, totals, fees, discounts, revenue per hour and the dashboard metrics. `Helpers.OrdersByHour` models only the `count` of each bucket, not `revenue`.
- The `garnish_items` of each saved item (`garnishItems` of the remote item): nested sub-documents carried through unchanged, with no logic. `Events.MapItems` keeps the id, name, quantity, external code and observations.
- The customer, address, payments, delivery and scheduling sub-documents of a saved order: only the customer name is kept, as `customerName`.
- Helpers.SerializeDoc: returns the converted document as a value; the in-place mutation of the caller's dictionary (aliasing) is not modelled.
- Helpers.OrdersByHour: takes the parsed hour of each order (or none when `fromisoformat` fails) as input; ISO parsing is not modelled.
- Helpers.UpdateItem: the best-effort marketplace sync after the update is not modelled, because its outcome is logged and ignored.
- JSON values that are present but null (for example `"items": null`) and non-JSON bodies: the model takes them as absent or well formed.
- Pass-through endpoints: auth token and merchants, catalog, promotions, merchant status, interruptions, opening hours, QR code, tracking, picking items, events listing. Each is a single remote call or query with no logic.
- `list_orders_today` and `get_order`: single queries with no logic beyond `find_one`.
- The test scripts `backend_test.py` and `merchant_test.py`: HTTP smoke tests against a deployed server.
- Behaviour the code does not implement and is therefore not modelled: single-flight refresh, retry on 401, handling of 429 and back-off, a full transition graph, the 8-minute overdue flag, and bounded dedup retention.
