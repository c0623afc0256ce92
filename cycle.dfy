/**
 * One polling cycle of backend/server.py (the body of `polling_loop`, also run by `force_poll`)
 * and the polling-status record it maintains.
 */
module Cycle {
  import opened Wrappers
  import opened Models
  import opened Client
  import opened Events

  // ==================== ACKNOWLEDGEMENT BATCH ====================

  /** `[e.get("id") for e in events if e.get("id")]` */
  function AckIds(evs: seq<RemoteEvent>): (ids: seq<string>)
    ensures |ids| <= |evs|
    ensures forall x :: x in ids ==> x != "" && exists i :: 0 <= i < |evs| && evs[i].id == Some(x)
    decreases |evs|
  {
    if |evs| == 0 then []
    else (if Present(evs[0].id) then [evs[0].id.value] else []) + AckIds(evs[1..])
  }

  /** The batch of a concatenation is the concatenation of the batches: fetch order is kept. */
  lemma {:induction false} AckIdsConcat(a: seq<RemoteEvent>, b: seq<RemoteEvent>)
    ensures AckIds(a + b) == AckIds(a) + AckIds(b)
    decreases |a|
  {
    if |a| > 0 {
      var head := if Present(a[0].id) then [a[0].id.value] else [];
      assert (a + b)[0] == a[0];
      assert (a + b)[1..] == a[1..] + b;
      assert AckIds(a + b) == head + AckIds(a[1..] + b);
      AckIdsConcat(a[1..], b);
      assert AckIds(a) == head + AckIds(a[1..]);
    } else {
      assert a + b == b;
    }
  }

  /** The number of events that carry a (non-empty) id. */
  function CountWithId(evs: seq<RemoteEvent>): nat
    decreases |evs|
  {
    if |evs| == 0 then 0 else (if Present(evs[0].id) then 1 else 0) + CountWithId(evs[1..])
  }

  /** The batch has one entry per event carrying an id, duplicates included. */
  lemma {:induction false} AckIdsCount(evs: seq<RemoteEvent>)
    ensures |AckIds(evs)| == CountWithId(evs)
    decreases |evs|
  {
    if |evs| > 0 {
      AckIdsCount(evs[1..]);
    }
  }

  /** When every event carries an id, the batch is exactly those ids in fetch order. */
  lemma {:induction false} AckIdsAllPresent(evs: seq<RemoteEvent>)
    requires forall i :: 0 <= i < |evs| ==> Present(evs[i].id)
    ensures |AckIds(evs)| == |evs|
    ensures forall i :: 0 <= i < |evs| ==> Some(AckIds(evs)[i]) == evs[i].id
    decreases |evs|
  {
    if |evs| > 0 {
      AckIdsAllPresent(evs[1..]);
      forall i | 0 <= i < |evs| ensures Some(AckIds(evs)[i]) == evs[i].id {
        if i > 0 {
          assert evs[1..][i - 1] == evs[i];
        }
      }
    }
  }

  // ==================== ONE CYCLE ====================

  /**
   * The request behind a cycle's `PollCall`: `poll_events(categories=["ALL"])`, so the categories
   * parameter is "ALL" and no groups are asked for.
   */
  function CyclePollRequest(token: string, merchantId: Option<string>): (q: PollQuery)
    ensures q.params == map["categories" := "ALL"]
    ensures "Authorization" in q.headers && q.headers["Authorization"] == "Bearer " + token
    ensures "x-polling-merchants" in q.headers <==> Present(merchantId)
  {
    PollRequest(token, merchantId, ["ALL"], [])
  }

  /** The store after a cycle and what the cycle reports: the number of events fetched, or the error. */
  datatype CycleResult = CycleResult(store: Store, outcome: Result<nat, string>)

  /**
   * Fetch, process each event in order, then acknowledge the ids of the fetched events (only
   * when there are some), in that order. A fetch failure processes nothing; an
   * acknowledgement failure comes after every event has been processed.
   */
  function RunCycle(s: Store, fetch: Reply<seq<RemoteEvent>>, env: nat -> EventEnv, ack: Reply<()>,
                    defaultMerchant: string, now: int): (r: CycleResult)
    ensures PollEvents(fetch).Err? ==>
              r == CycleResult(s.(sent := s.sent + [PollCall]), Err(PollEvents(fetch).error))
    ensures PollEvents(fetch).Ok? ==>
              var evs := PollEvents(fetch).value;
              var processed := ProcessAll(s.(sent := s.sent + [PollCall]), evs, env, defaultMerchant, now);
              && r.store.orders == processed.orders && r.store.events == processed.events
              && (|AckIds(evs)| == 0 ==> r == CycleResult(processed, Ok(|evs|)))
              && (|AckIds(evs)| > 0 ==>
                    && r.store.sent == processed.sent + [AckCall(AckIds(evs))]
                    && (r.outcome.Ok? <==> Acknowledge(ack).Ok?)
                    && (r.outcome.Err? ==> r.outcome.error == Acknowledge(ack).error)
                    && (r.outcome.Ok? ==> r.outcome.value == |evs|))
  {
    var polled := s.(sent := s.sent + [PollCall]);
    match PollEvents(fetch)
    case Err(error) => CycleResult(polled, Err(error))
    case Ok(evs) =>
      var processed := ProcessAll(polled, evs, env, defaultMerchant, now);
      var ids := AckIds(evs);
      if |evs| == 0 || |ids| == 0 then CycleResult(processed, Ok(|evs|))
      else
        var acked := processed.(sent := processed.sent + [AckCall(ids)]);
        match Acknowledge(ack)
        case Ok(_) => CycleResult(acked, Ok(|evs|))
        case Err(error) => CycleResult(acked, Err(error))
  }

  /** A cycle that refetches an already processed batch changes no order and no event record. */
  lemma RefetchChangesNothing(s: Store, fetch: Reply<seq<RemoteEvent>>, env: nat -> EventEnv, env2: nat -> EventEnv,
                              ack: Reply<()>, ack2: Reply<()>, m: string, now: int, later: int)
    requires PollEvents(fetch).Ok?
    ensures var first := RunCycle(s, fetch, env, ack, m, now).store;
            var second := RunCycle(first, fetch, env2, ack2, m, later).store;
            second.orders == first.orders && second.events == first.events
  {
    var evs := PollEvents(fetch).value;
    var first := RunCycle(s, fetch, env, ack, m, now).store;
    var p := ProcessAll(s.(sent := s.sent + [PollCall]), evs, env, m, now);
    BatchRecordsEveryEvent(s.(sent := s.sent + [PollCall]), evs, env, m, now);
    KnownBatchIgnored(first.(sent := first.sent + [PollCall]), evs, env2, m, later);
  }

  /**
   * A new PLACED event whose details request fails with anything but a 404: the cycle marks the
   * event processed and acknowledges its id, yet saves no order; fetched again, the event is a
   * duplicate, so the details are not requested again and the order is never saved.
   */
  lemma PlacedLostOnDetailsError(s: Store, e: RemoteEvent, env: nat -> EventEnv, env2: nat -> EventEnv,
                                 ack: Reply<()>, ack2: Reply<()>, m: string, now: int, later: int)
    requires e.id !in s.events && Present(e.id) && EventTypeOf(e) == "PLACED"
    requires OrderDetails(env(0).details).Err?
    ensures var fetch := Response(200, [e], "");
            var first := RunCycle(s, fetch, env, ack, m, now).store;
            var second := RunCycle(first, fetch, env2, ack2, m, later).store;
            && first.orders == s.orders
            && e.id in first.events && first.events[e.id].processed
            && first.sent == s.sent + [PollCall, DetailsCall(e.orderId), AckCall([e.id.value])]
            && second.orders == s.orders && second.events == first.events
            && second.sent == first.sent + [PollCall, AckCall([e.id.value])]
  {
    var fetch: Reply<seq<RemoteEvent>> := Response(200, [e], "");
    assert PollEvents(fetch) == Ok([e]);
    assert AckIds([e]) == [e.id.value] by {
      assert [e][1..] == [];
    }
    var polled := s.(sent := s.sent + [PollCall]);
    assert [e][..0] == [];
    assert ProcessAll(polled, [e], env, m, now) == ProcessEvent(polled, e, env(0), m, now);
    var first := RunCycle(s, fetch, env, ack, m, now).store;
    var again := first.(sent := first.sent + [PollCall]);
    assert ProcessAll(again, [e], env2, m, later) == ProcessEvent(again, e, env2(0), m, later);
  }

  // ==================== POLLING STATUS RECORD ====================

  /** The polling-status document; an upsert that sets only some keys leaves the others absent. */
  datatype PollingDoc = PollingDoc(
    merchantId: string,
    lastPollAt: Option<int>,
    eventsReceived: Option<int>,
    errorsCount: Option<int>,
    lastError: Option<string>,
    isActive: Option<bool>,
    connectionStatus: Option<string>)

  /** The document an upsert starts from. */
  function Existing(doc: Option<PollingDoc>, merchantId: string): PollingDoc
  {
    doc.GetOr(PollingDoc(merchantId, None, None, None, None, None, None))
  }

  /** The upsert after a successful cycle that fetched `n` events. */
  function RecordSuccess(doc: Option<PollingDoc>, merchantId: string, now: int, n: nat): (d: PollingDoc)
    ensures d.eventsReceived == Some(n) && d.errorsCount == Some(0) && d.lastError.None?
    ensures d.isActive == Some(true) && d.connectionStatus == Some(Connected) && d.lastPollAt == Some(now)
    ensures d.merchantId == Existing(doc, merchantId).merchantId
  {
    Existing(doc, merchantId).(lastPollAt := Some(now), eventsReceived := Some(n), errorsCount := Some(0),
                               lastError := None, isActive := Some(true), connectionStatus := Some("connected"))
  }

  /** The upsert after a failed cycle: `$set` the error and `$inc` the counter (from 0 when absent). */
  function RecordFailure(doc: Option<PollingDoc>, merchantId: string, error: string): (d: PollingDoc)
    ensures d.errorsCount == Some(Existing(doc, merchantId).errorsCount.GetOr(0) + 1)
    ensures d.lastError == Some(error) && d.connectionStatus == Some(ConnectionError)
    ensures d.isActive == Existing(doc, merchantId).isActive
    ensures d.lastPollAt == Existing(doc, merchantId).lastPollAt
    ensures d.eventsReceived == Existing(doc, merchantId).eventsReceived
  {
    var e := Existing(doc, merchantId);
    e.(lastError := Some(error), connectionStatus := Some("error"), errorsCount := Some(e.errorsCount.GetOr(0) + 1))
  }

  /** The upsert `stop_polling` makes. */
  function RecordStopped(doc: Option<PollingDoc>, merchantId: string): (d: PollingDoc)
    ensures d.isActive == Some(false) && d.connectionStatus == Some(Disconnected)
    ensures d.errorsCount == Existing(doc, merchantId).errorsCount
    ensures d.lastError == Existing(doc, merchantId).lastError
    ensures d.lastPollAt == Existing(doc, merchantId).lastPollAt
    ensures d.eventsReceived == Existing(doc, merchantId).eventsReceived
    ensures d.merchantId == Existing(doc, merchantId).merchantId
  {
    Existing(doc, merchantId).(isActive := Some(false), connectionStatus := Some("disconnected"))
  }

  /** The record after consecutive failed cycles with the given errors. */
  function AfterFailures(doc: PollingDoc, errors: seq<string>): PollingDoc
    decreases |errors|
  {
    if |errors| == 0 then doc
    else RecordFailure(Some(AfterFailures(doc, errors[..|errors| - 1])), doc.merchantId, errors[|errors| - 1])
  }

  /** After a success, `errors_count` counts the failed cycles since, and `last_error` is the latest. */
  lemma {:induction false} ErrorsCountSinceSuccess(doc: Option<PollingDoc>, merchantId: string, now: int, n: nat, errors: seq<string>)
    ensures var d := AfterFailures(RecordSuccess(doc, merchantId, now, n), errors);
            && d.errorsCount == Some(|errors|)
            && d.lastError == (if |errors| == 0 then None else Some(errors[|errors| - 1]))
            && d.isActive == Some(true) && d.eventsReceived == Some(n) && d.lastPollAt == Some(now)
    decreases |errors|
  {
    if |errors| > 0 {
      ErrorsCountSinceSuccess(doc, merchantId, now, n, errors[..|errors| - 1]);
    }
  }

  /** A successful cycle that fetched nothing leaves the counters of a fresh `PollingStatus`. */
  lemma SuccessMatchesFreshStatus(doc: Option<PollingDoc>, merchantId: string, id: string, now: int)
    ensures var d := RecordSuccess(doc, merchantId, now, 0);
            var p := FreshPollingStatus(id, merchantId, now);
            && d.eventsReceived == Some(p.eventsReceived) && d.errorsCount == Some(p.errorsCount)
            && d.lastError == p.lastError && d.isActive == Some(p.isActive)
            && d.connectionStatus == Some(p.connectionStatus) && d.lastPollAt == Some(p.lastPollAt)
  {
  }

  /** What `get_polling_status` returns. */
  datatype PollingView = PollingView(
    merchantId: Option<string>,
    isActive: Option<bool>,
    connectionStatus: Option<string>,
    lastPollAt: Option<int>,
    eventsReceived: Option<int>,
    errorsCount: Option<int>,
    lastError: Option<string>,
    pollingActive: bool)

  /** The stored document with `polling_active` added, or defaults derived from the flag. */
  function StatusView(doc: Option<PollingDoc>, pollingActive: bool): (v: PollingView)
    ensures v.pollingActive == pollingActive
    ensures doc.Some? ==> v.merchantId == Some(doc.value.merchantId) && v.isActive == doc.value.isActive && v.errorsCount == doc.value.errorsCount
                          && v.lastError == doc.value.lastError && v.connectionStatus == doc.value.connectionStatus
                          && v.lastPollAt == doc.value.lastPollAt && v.eventsReceived == doc.value.eventsReceived
    ensures doc.None? ==> v.merchantId.None? && v.lastError.None? && v.isActive == Some(pollingActive) && v.errorsCount == Some(0) && v.eventsReceived == Some(0)
                          && v.lastPollAt.None?
                          && v.connectionStatus == Some(if pollingActive then Connected else Disconnected)
  {
    match doc
    case Some(d) =>
      PollingView(Some(d.merchantId), d.isActive, d.connectionStatus, d.lastPollAt, d.eventsReceived, d.errorsCount, d.lastError, pollingActive)
    case None =>
      PollingView(None, Some(pollingActive), Some(if pollingActive then "connected" else "disconnected"),
                  None, Some(0), Some(0), None, pollingActive)
  }
}
