/** The enums, record defaults and constant table of backend/models.py. */
module Models {
  import opened Wrappers
  import Text

  // ==================== ENUMS ====================

  /** The ten order statuses; the wire value of each is its upper-snake-case name. */
  datatype OrderStatus =
    | Placed | Confirmed | PreparationStarted | SeparationStarted | SeparationEnded
    | ReadyToPickup | Dispatched | Arrived | Concluded | Cancelled

  const AllStatuses: seq<OrderStatus> := [
    Placed, Confirmed, PreparationStarted, SeparationStarted, SeparationEnded,
    ReadyToPickup, Dispatched, Arrived, Concluded, Cancelled
  ]

  function StatusWire(s: OrderStatus): string
  {
    match s
    case Placed => "PLACED"
    case Confirmed => "CONFIRMED"
    case PreparationStarted => "PREPARATION_STARTED"
    case SeparationStarted => "SEPARATION_STARTED"
    case SeparationEnded => "SEPARATION_ENDED"
    case ReadyToPickup => "READY_TO_PICKUP"
    case Dispatched => "DISPATCHED"
    case Arrived => "ARRIVED"
    case Concluded => "CONCLUDED"
    case Cancelled => "CANCELLED"
  }

  /** `OrderStatus(w)`: the status whose wire value is `w`, if any. */
  function ParseStatus(w: string): (r: Option<OrderStatus>)
    ensures r.Some? ==> StatusWire(r.value) == w
    ensures r.None? ==> forall s :: StatusWire(s) != w
  {
    if w == "PLACED" then Some(Placed)
    else if w == "CONFIRMED" then Some(Confirmed)
    else if w == "PREPARATION_STARTED" then Some(PreparationStarted)
    else if w == "SEPARATION_STARTED" then Some(SeparationStarted)
    else if w == "SEPARATION_ENDED" then Some(SeparationEnded)
    else if w == "READY_TO_PICKUP" then Some(ReadyToPickup)
    else if w == "DISPATCHED" then Some(Dispatched)
    else if w == "ARRIVED" then Some(Arrived)
    else if w == "CONCLUDED" then Some(Concluded)
    else if w == "CANCELLED" then Some(Cancelled)
    else None
  }

  /** There are exactly ten statuses, listed once each, with ten distinct wire values. */
  lemma StatusesEnumerated()
    ensures |AllStatuses| == 10
    ensures forall s :: s in AllStatuses
    ensures forall i, j :: 0 <= i < j < |AllStatuses| ==> StatusWire(AllStatuses[i]) != StatusWire(AllStatuses[j])
  {
    forall s: OrderStatus ensures s in AllStatuses {
      match s
      case Placed => assert AllStatuses[0] == s;
      case Confirmed => assert AllStatuses[1] == s;
      case PreparationStarted => assert AllStatuses[2] == s;
      case SeparationStarted => assert AllStatuses[3] == s;
      case SeparationEnded => assert AllStatuses[4] == s;
      case ReadyToPickup => assert AllStatuses[5] == s;
      case Dispatched => assert AllStatuses[6] == s;
      case Arrived => assert AllStatuses[7] == s;
      case Concluded => assert AllStatuses[8] == s;
      case Cancelled => assert AllStatuses[9] == s;
    }
  }

  /** Every status is read back from its wire value, so the wire values are pairwise distinct. */
  lemma StatusWireRoundTrip(s: OrderStatus)
    ensures ParseStatus(StatusWire(s)) == Some(s)
  {
  }

  datatype OrderType = Delivery | Takeout | DineIn

  function OrderTypeWire(t: OrderType): string
  {
    match t
    case Delivery => "DELIVERY"
    case Takeout => "TAKEOUT"
    case DineIn => "DINE_IN"
  }

  datatype OrderCategory = Food | Grocery | Anotai | FoodSelfService

  function CategoryWire(c: OrderCategory): string
  {
    match c
    case Food => "FOOD"
    case Grocery => "GROCERY"
    case Anotai => "ANOTAI"
    case FoodSelfService => "FOOD_SELF_SERVICE"
  }

  datatype OrderMoment = Immediate | TimeSlot

  function MomentWire(m: OrderMoment): string
  {
    match m
    case Immediate => "IMMEDIATE"
    case TimeSlot => "TIME_SLOT"
  }

  /** The event codes the marketplace sends. */
  datatype EventType =
    | EvPlaced | EvConfirmed | EvCancelled | EvDispatched | EvConcluded
    | EvPreparationStarted | EvReadyToPickup | EvAssignDriver | EvOrderPatched
    | EvHandshakeDispute | EvHandshakeSettlement | EvDeliveryGroupAssigned
    | EvRecommendedPreparationStart

  function EventTypeWire(e: EventType): string
  {
    match e
    case EvPlaced => "PLACED"
    case EvConfirmed => "CONFIRMED"
    case EvCancelled => "CANCELLED"
    case EvDispatched => "DISPATCHED"
    case EvConcluded => "CONCLUDED"
    case EvPreparationStarted => "PREPARATION_STARTED"
    case EvReadyToPickup => "READY_TO_PICKUP"
    case EvAssignDriver => "ASSIGN_DRIVER"
    case EvOrderPatched => "ORDER_PATCHED"
    case EvHandshakeDispute => "HANDSHAKE_DISPUTE"
    case EvHandshakeSettlement => "HANDSHAKE_SETTLEMENT"
    case EvDeliveryGroupAssigned => "DELIVERY_GROUP_ASSIGNED"
    case EvRecommendedPreparationStart => "RECOMMENDED_PREPARATION_START"
  }

  /** The event types whose handling sets an order's status (PLACED by creating the order). */
  predicate SetsStatus(e: EventType)
  {
    e in {EvPlaced, EvConfirmed, EvCancelled, EvDispatched, EvConcluded}
  }

  /** Every event type that the processor turns into a status names an order status. */
  lemma StatusEventsAreStatuses(e: EventType)
    requires SetsStatus(e)
    ensures ParseStatus(EventTypeWire(e)).Some?
    ensures StatusWire(ParseStatus(EventTypeWire(e)).value) == EventTypeWire(e)
  {
  }

  /** The event types that name an order status are exactly these seven. */
  lemma EventTypesNamingStatuses(e: EventType)
    ensures ParseStatus(EventTypeWire(e)).Some? <==>
              SetsStatus(e) || e == EvPreparationStarted || e == EvReadyToPickup
  {
  }

  // ==================== DOCUMENT VALUES ====================

  /** A value held in a stored document (a BSON/JSON value; datetimes kept as seconds). */
  datatype Value =
    | Null
    | Bool(b: bool)
    | Int(i: int)
    | Str(s: string)
    | Time(t: int)
    | List(elems: seq<Value>)
    | Object(fields: map<string, Value>)

  // ==================== ORDER ====================

  datatype OrderItem = OrderItem(
    id: Option<string>,
    name: Option<string>,
    quantity: int,
    externalCode: Option<string>,
    observations: Option<string>)

  /**
   * An order document. Type, category and moment hold wire strings, because the server stores
   * whatever the marketplace sent there; an absent optional field and a None value are one case.
   */
  datatype Order = Order(
    id: string,
    ifoodId: Option<string>,
    displayId: Option<string>,
    merchantId: string,
    status: OrderStatus,
    orderType: Option<string>,
    category: Option<string>,
    moment: Option<string>,
    customerName: Option<string>,
    items: seq<OrderItem>,
    driver: Option<Value>,
    observations: Option<string>,
    createdAt: int,
    updatedAt: int,
    confirmedAt: Option<int>,
    dispatchedAt: Option<int>,
    concludedAt: Option<int>,
    cancelledAt: Option<int>,
    preparationStart: Option<int>,
    cancellationCode: Option<string>,
    cancellationReason: Option<string>)

  /** An order that has not been acted on: no transition timestamp and no cancellation data. */
  predicate Untouched(o: Order)
  {
    && o.confirmedAt.None? && o.dispatchedAt.None? && o.concludedAt.None? && o.cancelledAt.None?
    && o.preparationStart.None? && o.cancellationCode.None? && o.cancellationReason.None?
  }

  /** `Order(id=…, ifood_id=…, display_id=…, merchant_id=…)` with every other field defaulted. */
  function FreshOrder(id: string, ifoodId: string, displayId: string, merchantId: string, now: int): (o: Order)
    ensures o.status == Placed && Untouched(o)
    ensures o.orderType == Some(OrderTypeWire(Delivery)) && o.category == Some(CategoryWire(Food))
    ensures o.moment == Some(MomentWire(Immediate))
    ensures o.items == [] && o.driver.None? && o.createdAt == now && o.updatedAt == now
  {
    Order(id, Some(ifoodId), Some(displayId), merchantId, Placed,
          Some("DELIVERY"), Some("FOOD"), Some("IMMEDIATE"), None, [], None, None,
          now, now, None, None, None, None, None, None, None)
  }

  // ==================== POLLING STATUS ====================

  datatype PollingStatus = PollingStatus(
    id: string,
    merchantId: string,
    lastPollAt: int,
    eventsReceived: int,
    errorsCount: int,
    lastError: Option<string>,
    isActive: bool,
    connectionStatus: string)

  const Connected := "connected"
  const Disconnected := "disconnected"
  const ConnectionError := "error"

  /** `PollingStatus(id=…, merchant_id=…)` with every other field defaulted. */
  function FreshPollingStatus(id: string, merchantId: string, now: int): (p: PollingStatus)
    ensures p.eventsReceived == 0 && p.errorsCount == 0 && p.lastError.None?
    ensures p.isActive && p.connectionStatus == Connected && p.lastPollAt == now
  {
    PollingStatus(id, merchantId, now, 0, 0, None, true, "connected")
  }

  // ==================== API RESPONSE ====================

  datatype APIResponse<D> = APIResponse(
    success: bool,
    message: Option<string>,
    data: Option<D>,
    error: Option<string>)

  /** `APIResponse()` with every field defaulted. */
  function DefaultResponse<D>(): (r: APIResponse<D>)
    ensures r.success && r.error.None? && r.message.None? && r.data.None?
  {
    APIResponse(true, None, None, None)
  }

  /** `APIResponse(success=True, message=…, data=…)`. */
  function Succeeded<D>(message: string, data: Option<D>): APIResponse<D>
  {
    DefaultResponse().(message := Some(message), data := data)
  }

  /** `APIResponse(success=False, error=…)`. */
  function Failed<D>(error: string): APIResponse<D>
  {
    DefaultResponse().(success := false, error := Some(error))
  }

  // ==================== CANCELLATION REASONS ====================

  datatype CancellationReason = CancellationReason(code: string, description: string, category: Option<string>)

  const CancellationReasons: seq<CancellationReason> := [
    CancellationReason("501", "Problemas de sistema", Some("TECHNICAL")),
    CancellationReason("502", "Pedido duplicado", Some("DUPLICATE")),
    CancellationReason("503", "Item indisponível", Some("STOCK")),
    CancellationReason("504", "Restaurante fechado", Some("OPERATION")),
    CancellationReason("505", "Sem entregador disponível", Some("DELIVERY")),
    CancellationReason("506", "Cliente solicitou cancelamento", Some("CUSTOMER")),
    CancellationReason("507", "Endereço inválido", Some("ADDRESS")),
    CancellationReason("508", "Área fora da cobertura", Some("ADDRESS")),
    CancellationReason("509", "Tempo de espera excedido", Some("TIMEOUT")),
    CancellationReason("510", "Pagamento não confirmado", Some("PAYMENT"))
  ]

  const UnspecifiedReason := "Motivo não especificado"

  /** The codes of the table are 501 to 510, in order, so no two entries share a code. */
  lemma CancellationCodes()
    ensures |CancellationReasons| == 10
    ensures forall i :: 0 <= i < 10 ==> CancellationReasons[i].code == Text.DecimalString(501 + i)
    ensures forall i, j :: 0 <= i < j < 10 ==> CancellationReasons[i].code != CancellationReasons[j].code
  {
    forall i | 0 <= i < 10 ensures CancellationReasons[i].code == Text.DecimalString(501 + i) {
      if i == 0 { assert Text.DecimalString(501) == "501"; }
      else if i == 1 { assert Text.DecimalString(502) == "502"; }
      else if i == 2 { assert Text.DecimalString(503) == "503"; }
      else if i == 3 { assert Text.DecimalString(504) == "504"; }
      else if i == 4 { assert Text.DecimalString(505) == "505"; }
      else if i == 5 { assert Text.DecimalString(506) == "506"; }
      else if i == 6 { assert Text.DecimalString(507) == "507"; }
      else if i == 7 { assert Text.DecimalString(508) == "508"; }
      else if i == 8 { assert Text.DecimalString(509) == "509"; }
      else { assert Text.DecimalString(510) == "510"; }
    }
  }
}
