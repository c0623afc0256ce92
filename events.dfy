/**
 * The inbound event processor of backend/server.py (`process_ifood_event` and
 * `save_order_from_ifood`) as functions over the stored collections.
 */
module Events {
  import opened Wrappers
  import opened Models
  import opened Client
  import Text

  /** A call the backend issues to the marketplace. */
  datatype Call =
    | PollCall
    | DetailsCall(orderId: Option<string>)
    | AckCall(ids: seq<string>)
    | ActionCall(action: OrderAction, orderId: Option<string>)

  /** A document of the events collection. */
  datatype EventRecord = EventRecord(
    id: string,
    eventId: Option<string>,
    eventType: string,
    orderId: Option<string>,
    merchantId: string,
    createdAt: int,
    processed: bool,
    processedAt: Option<int>,
    payload: RemoteEvent)

  /**
   * What the event processor works on: the orders collection in insertion order (an
   * `update_one` or `find_one` hits the first match), the events collection keyed by its
   * unique `event_id`, and the marketplace calls issued so far, oldest first.
   */
  datatype Store = Store(orders: seq<Order>, events: map<Option<string>, EventRecord>, sent: seq<Call>)

  /** What processing one event takes from outside: two fresh uuids and the order-details reply. */
  datatype EventEnv = EventEnv(recordId: string, orderUuid: string, details: Reply<RemoteOrder>)

  /** `event.get("code") or event.get("fullCode", "").split("/")[-1]` */
  function EventTypeOf(e: RemoteEvent): (t: string)
    ensures Present(e.code) ==> t == e.code.value
    ensures !Present(e.code) ==> '/' !in t
    ensures !Present(e.code) && e.fullCode.GetOr("") == "" ==> t == ""
    ensures !Present(e.code) ==>
              var f := e.fullCode.GetOr("");
              && (t == f <==> '/' !in f)
              && (t != f ==> |t| < |f| && f == f[..|f| - |t| - 1] + "/" + t)
  {
    if Present(e.code) then e.code.value else Text.LastSegment(e.fullCode.GetOr(""), '/')
  }

  // ==================== SAVING A NEW ORDER ====================

  /** Python's `s[:n]`. */
  function Prefix(s: string, n: nat): (r: string)
    ensures |r| == if |s| < n then |s| else n
    ensures r <= s
  {
    if |s| <= n then s else s[..n]
  }

  /** One entry of the `items` list `save_order_from_ifood` builds. */
  function MapItem(i: RemoteItem): OrderItem
  {
    OrderItem(i.id, i.name, i.quantity.GetOr(1), i.externalCode, i.observations)
  }

  /** The stored items: one per remote item, in order. */
  function MapItems(items: seq<RemoteItem>): (r: seq<OrderItem>)
    ensures |r| == |items|
    ensures forall k :: 0 <= k < |items| ==> r[k] == MapItem(items[k])
  {
    seq(|items|, k requires 0 <= k < |items| => MapItem(items[k]))
  }

  /** The order document `save_order_from_ifood` inserts for the details `d`. */
  function OrderFromIfood(d: RemoteOrder, merchantId: string, id: string, now: int): (o: Order)
    ensures o.id == id && o.ifoodId == d.id && o.merchantId == merchantId
    ensures o.status == Placed && Untouched(o) && o.driver.None?
    ensures o.displayId == Some(if d.displayId.Some? then d.displayId.value else Prefix(d.id.GetOr(""), 8))
    ensures o.orderType == Some(d.orderType.GetOr("DELIVERY"))
    ensures o.category == Some(d.salesChannel.GetOr("FOOD"))
    ensures o.moment == Some(d.orderTiming.GetOr("IMMEDIATE"))
    ensures |o.items| == |d.items|
    ensures forall k :: 0 <= k < |d.items| ==>
              && o.items[k].id == d.items[k].id && o.items[k].name == d.items[k].name
              && o.items[k].quantity == d.items[k].quantity.GetOr(1)
    ensures o.createdAt == now && o.updatedAt == now
  {
    Order(
      id, d.id, Some(d.displayId.GetOr(Prefix(d.id.GetOr(""), 8))), merchantId, Placed,
      Some(d.orderType.GetOr("DELIVERY")), Some(d.salesChannel.GetOr("FOOD")),
      Some(d.orderTiming.GetOr("IMMEDIATE")), Some(d.customerName.GetOr("Cliente")),
      MapItems(d.items), None, d.extraInfo,
      now, now, None, None, None, None, None, None, None)
  }

  /** Details with no type, channel or timing give an order with the defaults of the `Order` model. */
  lemma SavedOrderHasModelDefaults(d: RemoteOrder, merchantId: string, id: string, now: int)
    requires d.id.Some? && d.orderType.None? && d.salesChannel.None? && d.orderTiming.None?
    ensures var o := OrderFromIfood(d, merchantId, id, now);
            var defaults := FreshOrder(id, d.id.value, o.displayId.value, merchantId, now);
            o == defaults.(customerName := o.customerName, items := o.items, observations := o.observations)
  {
  }

  /** The 404 dictionary is saved as an order with no marketplace id and an empty display id. */
  lemma NotFoundDetailsSavedAsStub(merchantId: string, id: string, now: int)
    ensures var o := OrderFromIfood(NotFoundDetails, merchantId, id, now);
            o.ifoodId.None? && o.displayId == Some("") && o.status == Placed && o.items == []
  {
  }

  // ==================== UPDATING AN EXISTING ORDER ====================

  /** The status an event type sets on an existing order. */
  function EventStatus(t: string): (r: Option<OrderStatus>)
    ensures r.Some? <==> t in {"CONFIRMED", "CANCELLED", "DISPATCHED", "CONCLUDED"}
    ensures r.Some? ==> StatusWire(r.value) == t
  {
    if t == "CONFIRMED" then Some(Confirmed)
    else if t == "CANCELLED" then Some(Cancelled)
    else if t == "DISPATCHED" then Some(Dispatched)
    else if t == "CONCLUDED" then Some(Concluded)
    else None
  }

  /** The `$set` of an event that names a status: the status, its timestamp and `updated_at`. */
  function SetStatus(o: Order, s: OrderStatus, now: int): (r: Order)
    ensures r.status == s && r.updatedAt == now
    ensures r.cancelledAt == (if s == Cancelled then Some(now) else o.cancelledAt)
    ensures r.dispatchedAt == (if s == Dispatched then Some(now) else o.dispatchedAt)
    ensures r.concludedAt == (if s == Concluded then Some(now) else o.concludedAt)
    ensures r.(status := o.status, updatedAt := o.updatedAt, cancelledAt := o.cancelledAt,
               dispatchedAt := o.dispatchedAt, concludedAt := o.concludedAt) == o
  {
    var r := o.(status := s, updatedAt := now);
    match s
    case Cancelled => r.(cancelledAt := Some(now))
    case Dispatched => r.(dispatchedAt := Some(now))
    case Concluded => r.(concludedAt := Some(now))
    case _ => r
  }

  /** The `$set` of ASSIGN_DRIVER: the event's `driver` (an empty object when absent) and `updated_at`. */
  function SetDriver(o: Order, e: RemoteEvent, now: int): (r: Order)
    ensures r == o.(driver := Some(e.driver.GetOr(Object(map[]))), updatedAt := now)
  {
    o.(driver := Some(e.driver.GetOr(Object(map[]))), updatedAt := now)
  }

  /** The index `update_one({"ifood_id": key})` hits: the first order with that marketplace id. */
  function FirstWithIfoodId(orders: seq<Order>, key: Option<string>): (r: Option<nat>)
    ensures r.Some? ==> r.value < |orders| && orders[r.value].ifoodId == key
    ensures r.Some? ==> forall j :: 0 <= j < r.value ==> orders[j].ifoodId != key
    ensures r.None? ==> forall j :: 0 <= j < |orders| ==> orders[j].ifoodId != key
    decreases |orders|
  {
    if |orders| == 0 then None
    else if orders[0].ifoodId == key then Some(0)
    else
      var rest := FirstWithIfoodId(orders[1..], key);
      if rest.Some? then Some(rest.value + 1) else None
  }

  /** The orders after processing an event of type `t` that is not PLACED. */
  function UpdateOrders(orders: seq<Order>, t: string, e: RemoteEvent, now: int): (r: seq<Order>)
    ensures |r| == |orders|
    ensures EventStatus(t).None? && t != "ASSIGN_DRIVER" ==> r == orders
    ensures FirstWithIfoodId(orders, e.orderId).None? ==> r == orders
    ensures FirstWithIfoodId(orders, e.orderId).Some? ==>
              var i := FirstWithIfoodId(orders, e.orderId).value;
              && (forall j :: 0 <= j < |orders| && j != i ==> r[j] == orders[j])
              && (EventStatus(t).Some? ==> r[i] == SetStatus(orders[i], EventStatus(t).value, now))
              && (t == "ASSIGN_DRIVER" ==> r[i] == SetDriver(orders[i], e, now))
  {
    var target := FirstWithIfoodId(orders, e.orderId);
    if target.None? then orders
    else
      var i := target.value;
      if EventStatus(t).Some? then orders[i := SetStatus(orders[i], EventStatus(t).value, now)]
      else if t == "ASSIGN_DRIVER" then orders[i := SetDriver(orders[i], e, now)]
      else orders
  }

  // ==================== ONE EVENT ====================

  /** The record `process_ifood_event` inserts, still unprocessed. */
  function NewRecord(e: RemoteEvent, env: EventEnv, defaultMerchant: string, now: int): EventRecord
  {
    EventRecord(env.recordId, e.id, EventTypeOf(e), e.orderId, e.merchantId.GetOr(defaultMerchant),
                now, false, None, e)
  }

  /** The record once `process_ifood_event` has marked it processed. */
  function ProcessedRecord(e: RemoteEvent, env: EventEnv, defaultMerchant: string, now: int): (r: EventRecord)
    ensures r.processed && r.processedAt == Some(now) && r.eventId == e.id
  {
    NewRecord(e, env, defaultMerchant, now).(processed := true, processedAt := Some(now))
  }

  /** The store after `process_ifood_event(e)`. */
  function ProcessEvent(s: Store, e: RemoteEvent, env: EventEnv, defaultMerchant: string, now: int): (r: Store)
    ensures e.id in s.events ==> r == s
    ensures e.id !in s.events ==>
              && r.events == s.events[e.id := ProcessedRecord(e, env, defaultMerchant, now)]
              && (EventTypeOf(e) != "PLACED" ==>
                    r.orders == UpdateOrders(s.orders, EventTypeOf(e), e, now) && r.sent == s.sent)
              && (EventTypeOf(e) == "PLACED" ==>
                    && r.sent == s.sent + [DetailsCall(e.orderId)]
                    && r.orders == match OrderDetails(env.details)
                                   case Ok(d) => s.orders + [OrderFromIfood(d, e.merchantId.GetOr(defaultMerchant), env.orderUuid, now)]
                                   case Err(_) => s.orders)
  {
    if e.id in s.events then s
    else
      var t := EventTypeOf(e);
      var merchant := e.merchantId.GetOr(defaultMerchant);
      var events := s.events[e.id := ProcessedRecord(e, env, defaultMerchant, now)];
      if t == "PLACED" then
        var orders := match OrderDetails(env.details)
          case Ok(d) => s.orders + [OrderFromIfood(d, merchant, env.orderUuid, now)]
          case Err(_) => s.orders;
        Store(orders, events, s.sent + [DetailsCall(e.orderId)])
      else
        Store(UpdateOrders(s.orders, t, e, now), events, s.sent)
  }

  /** A PLACED event adds exactly one order, in PLACED status, unless the details call raises. */
  lemma PlacedAddsOneOrder(s: Store, e: RemoteEvent, env: EventEnv, defaultMerchant: string, now: int)
    requires e.id !in s.events && EventTypeOf(e) == "PLACED"
    requires OrderDetails(env.details).Ok?
    ensures var r := ProcessEvent(s, e, env, defaultMerchant, now);
            && |r.orders| == |s.orders| + 1 && r.orders[..|s.orders|] == s.orders
            && r.orders[|s.orders|].status == Placed
            && r.orders[|s.orders|].id == env.orderUuid
  {
    var r := ProcessEvent(s, e, env, defaultMerchant, now);
    assert r.orders == s.orders + [OrderFromIfood(OrderDetails(env.details).value, e.merchantId.GetOr(defaultMerchant), env.orderUuid, now)];
  }

  /** A delivery whose event id is already stored changes nothing, however it is processed. */
  lemma RedeliveryIgnored(s: Store, e: RemoteEvent, env: EventEnv, e2: RemoteEvent, env2: EventEnv, m: string, now: int, later: int)
    requires e2.id == e.id
    ensures var once := ProcessEvent(s, e, env, m, now);
            ProcessEvent(once, e2, env2, m, later) == once
  {
  }

  // ==================== A BATCH OF EVENTS ====================

  /** The store after processing `evs` in order; the i-th event takes its outside inputs from `env(i)`. */
  function ProcessAll(s: Store, evs: seq<RemoteEvent>, env: nat -> EventEnv, defaultMerchant: string, now: int): Store
    decreases |evs|
  {
    if |evs| == 0 then s
    else
      var n := |evs| - 1;
      ProcessEvent(ProcessAll(s, evs[..n], env, defaultMerchant, now), evs[n], env(n), defaultMerchant, now)
  }

  /** Every record in the store is marked processed. */
  predicate AllProcessed(s: Store)
  {
    forall k :: k in s.events ==> s.events[k].processed
  }

  /**
   * After a batch, every event id of the batch is stored, the records that were already there
   * are untouched, and a store whose records were all processed still has only processed ones.
   */
  lemma {:induction false} BatchRecordsEveryEvent(s: Store, evs: seq<RemoteEvent>, env: nat -> EventEnv, m: string, now: int)
    ensures var r := ProcessAll(s, evs, env, m, now);
            && (forall i :: 0 <= i < |evs| ==> evs[i].id in r.events)
            && (forall k :: k in s.events ==> k in r.events && r.events[k] == s.events[k])
            && (AllProcessed(s) ==> AllProcessed(r))
    decreases |evs|
  {
    if |evs| > 0 {
      var n := |evs| - 1;
      BatchRecordsEveryEvent(s, evs[..n], env, m, now);
      var mid := ProcessAll(s, evs[..n], env, m, now);
      forall i | 0 <= i < n ensures evs[i].id in mid.events {
        assert evs[..n][i] == evs[i];
      }
    }
  }

  /** A batch whose ids are all stored already changes nothing. */
  lemma {:induction false} KnownBatchIgnored(s: Store, evs: seq<RemoteEvent>, env: nat -> EventEnv, m: string, now: int)
    requires forall i :: 0 <= i < |evs| ==> evs[i].id in s.events
    ensures ProcessAll(s, evs, env, m, now) == s
    decreases |evs|
  {
    if |evs| > 0 {
      var n := |evs| - 1;
      forall i | 0 <= i < n ensures evs[..n][i].id in s.events {
        assert evs[..n][i] == evs[i];
      }
      KnownBatchIgnored(s, evs[..n], env, m, now);
    }
  }

  /** Processing a redelivered batch a second time leaves the store as the first pass left it. */
  lemma BatchIdempotent(s: Store, evs: seq<RemoteEvent>, env: nat -> EventEnv, env2: nat -> EventEnv, m: string, now: int, later: int)
    ensures var once := ProcessAll(s, evs, env, m, now);
            ProcessAll(once, evs, env2, m, later) == once
  {
    BatchRecordsEveryEvent(s, evs, env, m, now);
    KnownBatchIgnored(ProcessAll(s, evs, env, m, now), evs, env2, m, later);
  }
}
