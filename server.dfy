/**
 * The backend process of backend/server.py: the orders and events collections, the log of
 * marketplace calls, the polling-status record and the `polling_active` / `polling_task`
 * globals, with the endpoints that change them proved against the functions of `Events`,
 * `Cycle` and `Actions`.
 */
module Server {
  import opened Wrappers
  import opened Models
  import opened Client
  import opened Events
  import opened Cycle
  import opened Actions
  import Text

  /** The `force_poll` answer for a cycle outcome. */
  function ForcePollResponse(outcome: Result<nat, string>): (r: APIResponse<nat>)
    ensures r.success <==> outcome.Ok?
    ensures outcome.Ok? ==>
              r.data == Some(outcome.value) &&
              r.message == Some("Polling forçado: " + Text.DecimalString(outcome.value) + " eventos processados")
    ensures outcome.Err? ==> r.error == Some(outcome.error) && r.data.None?
  {
    match outcome
    case Ok(n) => Succeeded("Polling forçado: " + Text.DecimalString(n) + " eventos processados", Some(n))
    case Err(e) => Failed(e)
  }

  class Backend {
    /** `IFOOD_MERCHANT_ID`, read once. */
    const merchantId: string
    var orders: seq<Order>
    var events: map<Option<string>, EventRecord>
    /** The marketplace calls made so far, in order. */
    var sent: seq<Call>
    /** The polling-status document of `merchantId`, if any was written. */
    var pollingStatus: Option<PollingDoc>
    var pollingActive: bool
    /** Whether `polling_task` holds a task. */
    var pollingTask: bool
    /** How many polling tasks `start_polling` has created. */
    var tasksCreated: nat

    function State(): Store
      reads this
    {
      Store(orders, events, sent)
    }

    /** A task runs exactly while polling is active, and every stored event has been processed. */
    predicate Valid()
      reads this
    {
      pollingTask == pollingActive && AllProcessed(State())
    }

    constructor(merchantId: string)
      ensures this.merchantId == merchantId && Valid()
      ensures orders == [] && events == map[] && sent == []
      ensures pollingStatus.None? && !pollingActive && tasksCreated == 0
    {
      this.merchantId := merchantId;
      orders := [];
      events := map[];
      sent := [];
      pollingStatus := None;
      pollingActive := false;
      pollingTask := false;
      tasksCreated := 0;
    }

    /** `save_order_from_ifood`: the items are mapped one by one, then the order is inserted. */
    method SaveOrderFromIfood(d: RemoteOrder, merchant: string, id: string, now: int)
      modifies this
      ensures orders == old(orders) + [OrderFromIfood(d, merchant, id, now)]
      ensures events == old(events) && sent == old(sent) && pollingStatus == old(pollingStatus)
      ensures pollingActive == old(pollingActive) && pollingTask == old(pollingTask) && tasksCreated == old(tasksCreated)
    {
      var items: seq<OrderItem> := [];
      var k := 0;
      while k < |d.items|
        invariant 0 <= k <= |d.items|
        invariant |items| == k && forall j :: 0 <= j < k ==> items[j] == MapItem(d.items[j])
      {
        var item := d.items[k];
        items := items + [OrderItem(item.id, item.name, item.quantity.GetOr(1), item.externalCode, item.observations)];
        k := k + 1;
      }
      assert items == MapItems(d.items);
      var doc := Order(
        id, d.id, Some(d.displayId.GetOr(Prefix(d.id.GetOr(""), 8))), merchant, Placed,
        Some(d.orderType.GetOr("DELIVERY")), Some(d.salesChannel.GetOr("FOOD")),
        Some(d.orderTiming.GetOr("IMMEDIATE")), Some(d.customerName.GetOr("Cliente")),
        items, None, d.extraInfo,
        now, now, None, None, None, None, None, None, None);
      orders := orders + [doc];
    }

    /**
     * `process_ifood_event`: skip a known id; otherwise insert the record unprocessed, apply the
     * event, and mark the record processed.
     */
    method ProcessIfoodEvent(e: RemoteEvent, env: EventEnv, now: int)
      requires Valid()
      modifies this
      ensures Valid()
      ensures State() == ProcessEvent(old(State()), e, env, merchantId, now)
      ensures pollingStatus == old(pollingStatus) && pollingActive == old(pollingActive)
      ensures pollingTask == old(pollingTask) && tasksCreated == old(tasksCreated)
    {
      if e.id in events {
        return;
      }
      var t := EventTypeOf(e);
      var merchant := e.merchantId.GetOr(merchantId);
      events := events[e.id := NewRecord(e, env, merchantId, now)];
      if t == "PLACED" {
        sent := sent + [DetailsCall(e.orderId)];
        var details := OrderDetails(env.details);
        if details.Ok? {
          SaveOrderFromIfood(details.value, merchant, env.orderUuid, now);
        }
      } else {
        var target := FirstWithIfoodId(orders, e.orderId);
        if target.Some? {
          var i := target.value;
          var status := EventStatus(t);
          if status.Some? {
            orders := orders[i := SetStatus(orders[i], status.value, now)];
          } else if t == "ASSIGN_DRIVER" {
            orders := orders[i := orders[i].(driver := Some(e.driver.GetOr(Object(map[]))), updatedAt := now)];
          }
        }
      }
      events := events[e.id := events[e.id].(processed := true, processedAt := Some(now))];
    }

    /** One cycle: fetch, process each event in order, acknowledge the ids. */
    method PollCycle(fetch: Reply<seq<RemoteEvent>>, env: nat -> EventEnv, ack: Reply<()>, now: int)
      returns (outcome: Result<nat, string>)
      requires Valid()
      modifies this
      ensures Valid()
      ensures var c := RunCycle(old(State()), fetch, env, ack, merchantId, now);
              State() == c.store && outcome == c.outcome
      ensures pollingStatus == old(pollingStatus) && pollingActive == old(pollingActive)
      ensures pollingTask == old(pollingTask) && tasksCreated == old(tasksCreated)
    {
      sent := sent + [PollCall];
      var polled := PollEvents(fetch);
      if polled.Err? {
        return Err(polled.error);
      }
      var evs := polled.value;
      ghost var start := State();
      var i := 0;
      while i < |evs|
        invariant 0 <= i <= |evs|
        invariant Valid()
        invariant State() == ProcessAll(start, evs[..i], env, merchantId, now)
        invariant pollingStatus == old(pollingStatus) && pollingActive == old(pollingActive)
        invariant pollingTask == old(pollingTask) && tasksCreated == old(tasksCreated)
      {
        assert evs[..i + 1][..i] == evs[..i];
        ProcessIfoodEvent(evs[i], env(i), now);
        i := i + 1;
      }
      assert evs[..i] == evs;
      if |evs| > 0 {
        var ids := AckIds(evs);
        if |ids| > 0 {
          sent := sent + [AckCall(ids)];
          var acked := Acknowledge(ack);
          if acked.Err? {
            return Err(acked.error);
          }
        }
      }
      return Ok(|evs|);
    }

    /**
     * One iteration of `polling_loop`: nothing once polling is inactive; otherwise a cycle and
     * the upsert of the polling-status record it calls for.
     */
    method PollingLoopStep(fetch: Reply<seq<RemoteEvent>>, env: nat -> EventEnv, ack: Reply<()>, now: int)
      returns (ran: bool)
      requires Valid()
      modifies this
      ensures Valid()
      ensures ran == old(pollingActive)
      ensures !ran ==> unchanged(this)
      ensures ran ==>
                var c := RunCycle(old(State()), fetch, env, ack, merchantId, now);
                && State() == c.store
                && pollingStatus == Some(match c.outcome
                                         case Ok(n) => RecordSuccess(old(pollingStatus), merchantId, now, n)
                                         case Err(error) => RecordFailure(old(pollingStatus), merchantId, error))
      ensures pollingActive == old(pollingActive) && tasksCreated == old(tasksCreated)
    {
      if !pollingActive {
        return false;
      }
      var outcome := PollCycle(fetch, env, ack, now);
      match outcome {
        case Ok(n) =>
          pollingStatus := Some(RecordSuccess(pollingStatus, merchantId, now, n));
        case Err(error) =>
          pollingStatus := Some(RecordFailure(pollingStatus, merchantId, error));
      }
      return true;
    }

    /** `force_poll`: a cycle outside the loop; the polling-status record is not written. */
    method ForcePoll(fetch: Reply<seq<RemoteEvent>>, env: nat -> EventEnv, ack: Reply<()>, now: int)
      returns (r: APIResponse<nat>)
      requires Valid()
      modifies this
      ensures Valid()
      ensures var c := RunCycle(old(State()), fetch, env, ack, merchantId, now);
              State() == c.store && r == ForcePollResponse(c.outcome)
      ensures pollingStatus == old(pollingStatus) && pollingActive == old(pollingActive)
      ensures pollingTask == old(pollingTask) && tasksCreated == old(tasksCreated)
    {
      var outcome := PollCycle(fetch, env, ack, now);
      match outcome
      case Ok(n) =>
        r := Succeeded("Polling forçado: " + Text.DecimalString(n) + " eventos processados", Some(n));
      case Err(error) =>
        r := Failed(error);
    }

    /** `start_polling`: a second start while active creates no second task. */
    method StartPolling() returns (r: APIResponse<()>)
      requires Valid()
      modifies this
      ensures Valid() && pollingActive
      ensures tasksCreated == old(tasksCreated) + (if old(pollingActive) then 0 else 1)
      ensures r == Succeeded(if old(pollingActive) then "Polling já está ativo" else "Polling iniciado", None)
      ensures State() == old(State()) && pollingStatus == old(pollingStatus)
    {
      if pollingActive {
        return Succeeded("Polling já está ativo", None);
      }
      pollingActive := true;
      pollingTask := true;
      tasksCreated := tasksCreated + 1;
      return Succeeded("Polling iniciado", None);
    }

    /** `stop_polling`: the flag goes down, the task is dropped and the record says disconnected. */
    method StopPolling() returns (r: APIResponse<()>)
      requires Valid()
      modifies this
      ensures Valid() && !pollingActive
      ensures pollingStatus == Some(RecordStopped(old(pollingStatus), merchantId))
      ensures r == Succeeded("Polling parado", None)
      ensures State() == old(State()) && tasksCreated == old(tasksCreated)
    {
      pollingActive := false;
      pollingTask := false;
      pollingStatus := Some(RecordStopped(pollingStatus, merchantId));
      return Succeeded("Polling parado", None);
    }

    /** `get_polling_status`: reads the record and the flag, changes nothing. */
    method GetPollingStatus() returns (v: PollingView)
      ensures v == StatusView(pollingStatus, pollingActive)
      ensures v.pollingActive == pollingActive
      ensures pollingStatus.Some? ==> v.merchantId == Some(pollingStatus.value.merchantId) &&
                                      v.isActive == pollingStatus.value.isActive &&
                                      v.errorsCount == pollingStatus.value.errorsCount &&
                                      v.lastError == pollingStatus.value.lastError &&
                                      v.connectionStatus == pollingStatus.value.connectionStatus &&
                                      v.lastPollAt == pollingStatus.value.lastPollAt &&
                                      v.eventsReceived == pollingStatus.value.eventsReceived
      ensures pollingStatus.None? ==> v.merchantId.None? && v.lastError.None? &&
                                      v.isActive == Some(pollingActive) && v.errorsCount == Some(0) &&
                                      v.eventsReceived == Some(0) && v.lastPollAt.None? &&
                                      v.connectionStatus == Some(if pollingActive then Connected else Disconnected)
    {
      v := StatusView(pollingStatus, pollingActive);
    }

    /** The shared shape of the action endpoints. */
    method PerformAction(orderId: string, a: OrderAction, reply: Reply<()>, now: int) returns (r: HandlerResult)
      requires Valid()
      modifies this
      ensures Valid()
      ensures (r, State()) == RunAction(old(State()), orderId, a, reply, now)
      ensures pollingStatus == old(pollingStatus) && pollingActive == old(pollingActive) && tasksCreated == old(tasksCreated)
    {
      var found := FindById(orders, orderId);
      if found.None? {
        return HttpError(404, OrderNotFound);
      }
      var i := found.value;
      var o := orders[i];
      var refused := Guard(a, o.status);
      if refused.Some? {
        return HttpError(400, refused.value);
      }
      sent := sent + [ActionCall(a, o.ifoodId)];
      var outcome := ActionOutcome(a, o.ifoodId, reply);
      if outcome.Err? {
        return Handled(Failed(outcome.error));
      }
      orders := orders[i := Applied(o, a, now)];
      return Handled(Succeeded(SuccessMessage(a), Some(outcome.value)));
    }

    method ConfirmOrder(orderId: string, reply: Reply<()>, now: int) returns (r: HandlerResult)
      requires Valid()
      modifies this
      ensures Valid()
      ensures (r, State()) == RunAction(old(State()), orderId, ConfirmAction, reply, now)
      ensures pollingStatus == old(pollingStatus) && pollingActive == old(pollingActive) && tasksCreated == old(tasksCreated)
    {
      r := PerformAction(orderId, ConfirmAction, reply, now);
    }

    method StartOrderPreparation(orderId: string, reply: Reply<()>, now: int) returns (r: HandlerResult)
      requires Valid()
      modifies this
      ensures Valid()
      ensures (r, State()) == RunAction(old(State()), orderId, StartPreparationAction, reply, now)
      ensures pollingStatus == old(pollingStatus) && pollingActive == old(pollingActive) && tasksCreated == old(tasksCreated)
    {
      r := PerformAction(orderId, StartPreparationAction, reply, now);
    }

    method MarkOrderReady(orderId: string, reply: Reply<()>, now: int) returns (r: HandlerResult)
      requires Valid()
      modifies this
      ensures Valid()
      ensures (r, State()) == RunAction(old(State()), orderId, ReadyToPickupAction, reply, now)
      ensures pollingStatus == old(pollingStatus) && pollingActive == old(pollingActive) && tasksCreated == old(tasksCreated)
    {
      r := PerformAction(orderId, ReadyToPickupAction, reply, now);
    }

    method DispatchOrder(orderId: string, reply: Reply<()>, now: int) returns (r: HandlerResult)
      requires Valid()
      modifies this
      ensures Valid()
      ensures (r, State()) == RunAction(old(State()), orderId, DispatchAction, reply, now)
      ensures pollingStatus == old(pollingStatus) && pollingActive == old(pollingActive) && tasksCreated == old(tasksCreated)
    {
      r := PerformAction(orderId, DispatchAction, reply, now);
    }

    /** `cancel_order`; the endpoint's default code is `DefaultCancellationCode`. */
    method CancelOrder(orderId: string, code: string, reply: Reply<()>, now: int) returns (r: HandlerResult)
      requires Valid()
      modifies this
      ensures Valid()
      ensures (r, State()) == RunAction(old(State()), orderId, CancellationAction(code), reply, now)
      ensures pollingStatus == old(pollingStatus) && pollingActive == old(pollingActive) && tasksCreated == old(tasksCreated)
    {
      r := PerformAction(orderId, CancellationAction(code), reply, now);
    }

    method StartPicking(orderId: string, reply: Reply<()>, now: int) returns (r: HandlerResult)
      requires Valid()
      modifies this
      ensures Valid()
      ensures (r, State()) == RunAction(old(State()), orderId, StartSeparationAction, reply, now)
      ensures pollingStatus == old(pollingStatus) && pollingActive == old(pollingActive) && tasksCreated == old(tasksCreated)
    {
      r := PerformAction(orderId, StartSeparationAction, reply, now);
    }

    method EndPicking(orderId: string, reply: Reply<()>, now: int) returns (r: HandlerResult)
      requires Valid()
      modifies this
      ensures Valid()
      ensures (r, State()) == RunAction(old(State()), orderId, EndSeparationAction, reply, now)
      ensures pollingStatus == old(pollingStatus) && pollingActive == old(pollingActive) && tasksCreated == old(tasksCreated)
    {
      r := PerformAction(orderId, EndSeparationAction, reply, now);
    }
  }
}
