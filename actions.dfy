/**
 * The order-action endpoints of backend/server.py (confirm, start-preparation, ready, dispatch,
 * cancel, and the picking start/end), each a find, an optional status guard, one marketplace
 * call and, when it succeeds, one update of the stored order.
 */
module Actions {
  import opened Wrappers
  import Lookup
  import opened Models
  import opened Client
  import opened Events

  // ==================== CANCELLATION REASON LOOKUP ====================

  /** The first description whose code matches, or the default: `next((…), default)`. */
  function FirstDescription(table: seq<CancellationReason>, code: string, default: string): (d: string)
    ensures (exists i :: 0 <= i < |table| && table[i].code == code) ==>
              exists i :: 0 <= i < |table| && table[i].code == code && d == table[i].description &&
                          forall j :: 0 <= j < i ==> table[j].code != code
    ensures (forall i :: 0 <= i < |table| ==> table[i].code != code) ==> d == default
    decreases |table|
  {
    if |table| == 0 then default
    else if table[0].code == code then table[0].description
    else
      var rest := FirstDescription(table[1..], code, default);
      assert forall i :: 1 <= i < |table| ==> table[1..][i - 1] == table[i];
      rest
  }

  /** The reason stored with a cancellation. */
  function ReasonFor(code: string): string
  {
    FirstDescription(CancellationReasons, code, UnspecifiedReason)
  }

  /** A code of the table yields that entry's description, and every other code the default. */
  lemma ReasonForLookup(code: string)
    ensures forall i :: 0 <= i < |CancellationReasons| && CancellationReasons[i].code == code ==>
              ReasonFor(code) == CancellationReasons[i].description
    ensures (forall i :: 0 <= i < |CancellationReasons| ==> CancellationReasons[i].code != code) ==>
              ReasonFor(code) == UnspecifiedReason
  {
    CancellationCodes();
  }

  /** The default code of the endpoint. */
  const DefaultCancellationCode := "501"

  lemma DefaultCodeReason()
    ensures ReasonFor(DefaultCancellationCode) == "Problemas de sistema"
  {
    ReasonForLookup(DefaultCancellationCode);
    assert CancellationReasons[0].code == "501";
  }

  // ==================== ONE ACTION ====================

  /** `find_one({"id": order_id})`: the first stored order with that internal id. */
  function FindById(orders: seq<Order>, id: string): (r: Option<nat>)
    ensures r.Some? ==> r.value < |orders| && orders[r.value].id == id
    ensures r.Some? ==> forall j :: 0 <= j < r.value ==> orders[j].id != id
    ensures r.None? ==> forall j :: 0 <= j < |orders| ==> orders[j].id != id
  {
    Lookup.FirstIndex(orders, OrderId, id)
  }

  /** The key a lookup on the collection compares. */
  function OrderId(x: Order): string
  {
    x.id
  }

  /** The 400 detail an action refuses with; only confirm and cancel have a guard. */
  function Guard(a: OrderAction, status: OrderStatus): (g: Option<string>)
    ensures g.Some? <==> (a.ConfirmAction? && status != Placed) || (a.CancellationAction? && status == Cancelled)
  {
    match a
    case ConfirmAction => if status != Placed then Some("Pedido já foi processado") else None
    case CancellationAction(_) => if status == Cancelled then Some("Pedido já cancelado") else None
    case _ => None
  }

  /** The status an action stores. */
  function TargetStatus(a: OrderAction): OrderStatus
  {
    match a
    case ConfirmAction => Confirmed
    case StartPreparationAction => PreparationStarted
    case ReadyToPickupAction => ReadyToPickup
    case DispatchAction => Dispatched
    case CancellationAction(_) => Cancelled
    case StartSeparationAction => SeparationStarted
    case EndSeparationAction => SeparationEnded
  }

  /** The `$set` an action applies to the stored order once the marketplace accepted it. */
  function Applied(o: Order, a: OrderAction, now: int): (r: Order)
    ensures r.status == TargetStatus(a) && r.updatedAt == now
    ensures r.id == o.id && r.ifoodId == o.ifoodId && r.items == o.items && r.createdAt == o.createdAt
    ensures r.confirmedAt == (if a.ConfirmAction? then Some(now) else o.confirmedAt)
    ensures r.preparationStart == (if a.StartPreparationAction? then Some(now) else o.preparationStart)
    ensures r.dispatchedAt == (if a.DispatchAction? then Some(now) else o.dispatchedAt)
    ensures r.cancelledAt == (if a.CancellationAction? then Some(now) else o.cancelledAt)
    ensures a.CancellationAction? ==> r.cancellationCode == Some(a.code) && r.cancellationReason == Some(ReasonFor(a.code))
    ensures !a.CancellationAction? ==> r.cancellationCode == o.cancellationCode && r.cancellationReason == o.cancellationReason
    ensures r.(status := o.status, updatedAt := o.updatedAt, confirmedAt := o.confirmedAt,
               preparationStart := o.preparationStart, dispatchedAt := o.dispatchedAt,
               cancelledAt := o.cancelledAt, cancellationCode := o.cancellationCode,
               cancellationReason := o.cancellationReason) == o
  {
    var moved := o.(status := TargetStatus(a), updatedAt := now);
    match a
    case ConfirmAction => moved.(confirmedAt := Some(now))
    case StartPreparationAction => moved.(preparationStart := Some(now))
    case DispatchAction => moved.(dispatchedAt := Some(now))
    case CancellationAction(code) =>
      moved.(cancelledAt := Some(now), cancellationCode := Some(code), cancellationReason := Some(ReasonFor(code)))
    case _ => moved
  }

  /** The message of a successful response. */
  function SuccessMessage(a: OrderAction): string
  {
    match a
    case ConfirmAction => "Pedido confirmado"
    case StartPreparationAction => "Preparo iniciado"
    case ReadyToPickupAction => "Pedido pronto para retirada"
    case DispatchAction => "Pedido despachado"
    case CancellationAction(_) => "Cancelamento solicitado"
    case StartSeparationAction => "Separação iniciada"
    case EndSeparationAction => "Separação finalizada"
  }

  /** What an endpoint answers: an `HTTPException`, or an `APIResponse` body. */
  datatype HandlerResult = HttpError(status: int, detail: string) | Handled(response: APIResponse<ActionResult>)

  const OrderNotFound := "Pedido não encontrado"

  /**
   * One action endpoint. A missing order is a 404 and a refused guard a 400, both before any
   * call. Otherwise the action is sent with the order's `ifood_id`; the order is updated only
   * when the marketplace accepted it, and a failure comes back as `success=False`.
   */
  function RunAction(s: Store, orderId: string, a: OrderAction, reply: Reply<()>, now: int): (r: (HandlerResult, Store))
    ensures FindById(s.orders, orderId).None? ==> r == (HttpError(404, OrderNotFound), s)
    ensures FindById(s.orders, orderId).Some? ==>
              var i := FindById(s.orders, orderId).value;
              var o := s.orders[i];
              && (Guard(a, o.status).Some? ==> r == (HttpError(400, Guard(a, o.status).value), s))
              && (Guard(a, o.status).None? ==>
                    && r.1.events == s.events
                    && r.1.sent == s.sent + [ActionCall(a, o.ifoodId)]
                    && (ActionOutcome(a, o.ifoodId, reply).Err? ==>
                          r.1.orders == s.orders && r.0 == Handled(Failed(ActionOutcome(a, o.ifoodId, reply).error)))
                    && (ActionOutcome(a, o.ifoodId, reply).Ok? ==>
                          && r.1.orders == s.orders[i := Applied(o, a, now)]
                          && r.0 == Handled(Succeeded(SuccessMessage(a), Some(ActionOutcome(a, o.ifoodId, reply).value)))))
  {
    match FindById(s.orders, orderId)
    case None => (HttpError(404, OrderNotFound), s)
    case Some(i) =>
      var o := s.orders[i];
      match Guard(a, o.status)
      case Some(detail) => (HttpError(400, detail), s)
      case None =>
        var called := s.(sent := s.sent + [ActionCall(a, o.ifoodId)]);
        match ActionOutcome(a, o.ifoodId, reply)
        case Err(error) => (Handled(Failed(error)), called)
        case Ok(result) =>
          (Handled(Succeeded(SuccessMessage(a), Some(result))), called.(orders := s.orders[i := Applied(o, a, now)]))
  }

  // ==================== PROPERTIES OF THE ACTIONS ====================

  /** Only the addressed order can change, and it keeps its internal id. */
  lemma {:induction false} ActionTouchesOneOrder(s: Store, orderId: string, a: OrderAction, reply: Reply<()>, now: int)
    ensures var t := RunAction(s, orderId, a, reply, now).1;
            && |t.orders| == |s.orders|
            && (forall j :: 0 <= j < |s.orders| && s.orders[j].id != orderId ==> t.orders[j] == s.orders[j])
            && (forall j :: 0 <= j < |s.orders| ==> t.orders[j].id == s.orders[j].id)
  {
  }

  /** A successful response means the order was found, passed its guard and was updated once. */
  lemma SucceededAction(s: Store, orderId: string, a: OrderAction, reply: Reply<()>, now: int)
    requires var r := RunAction(s, orderId, a, reply, now);
             r.0.Handled? && r.0.response.success
    ensures FindById(s.orders, orderId).Some?
    ensures var i := FindById(s.orders, orderId).value;
            && Guard(a, s.orders[i].status).None?
            && ActionOutcome(a, s.orders[i].ifoodId, reply).Ok?
            && RunAction(s, orderId, a, reply, now).1.orders == s.orders[i := Applied(s.orders[i], a, now)]
  {
  }

  /** Confirm sends a call only for a `PLACED` order, and a success leaves it `CONFIRMED` with `confirmed_at`. */
  lemma ConfirmOnlyFromPlaced(s: Store, orderId: string, reply: Reply<()>, now: int)
    ensures var r := RunAction(s, orderId, ConfirmAction, reply, now);
            && (r.1.sent != s.sent <==>
                  FindById(s.orders, orderId).Some? && s.orders[FindById(s.orders, orderId).value].status == Placed)
            && (r.0.Handled? && r.0.response.success ==>
                  var i := FindById(s.orders, orderId).value;
                  r.1.orders[i].status == Confirmed && r.1.orders[i].confirmedAt == Some(now))
  {
    var r := RunAction(s, orderId, ConfirmAction, reply, now);
    if r.0.Handled? && r.0.response.success {
      SucceededAction(s, orderId, ConfirmAction, reply, now);
    }
  }

  /** Once a cancellation succeeded, a second one is refused with a 400 and sends nothing. */
  lemma CancelTwiceRefused(s: Store, orderId: string, code: string, code2: string,
                           reply: Reply<()>, reply2: Reply<()>, now: int, later: int)
    requires var r := RunAction(s, orderId, CancellationAction(code), reply, now);
             r.0.Handled? && r.0.response.success
    ensures var t := RunAction(s, orderId, CancellationAction(code), reply, now).1;
            RunAction(t, orderId, CancellationAction(code2), reply2, later) == (HttpError(400, "Pedido já cancelado"), t)
  {
    var t := RunAction(s, orderId, CancellationAction(code), reply, now).1;
    CancelRecordsReason(s, orderId, code, reply, now);
    ActionTouchesOneOrder(s, orderId, CancellationAction(code), reply, now);
    FindByIdSameIds(s.orders, t.orders, orderId);
    CancelRefusedWhenCancelled(t, orderId, code2, reply2, later);
  }

  /** Cancel on a stored `CANCELLED` order is the 400 refusal, with nothing sent and nothing changed. */
  lemma CancelRefusedWhenCancelled(t: Store, orderId: string, code: string, reply: Reply<()>, now: int)
    requires FindById(t.orders, orderId).Some?
    requires t.orders[FindById(t.orders, orderId).value].status == Cancelled
    ensures RunAction(t, orderId, CancellationAction(code), reply, now) == (HttpError(400, "Pedido já cancelado"), t)
  {
  }

  /** Two order lists with the same ids, position by position, find the same position. */
  lemma FindByIdSameIds(xs: seq<Order>, ys: seq<Order>, id: string)
    requires |xs| == |ys| && forall j :: 0 <= j < |xs| ==> xs[j].id == ys[j].id
    ensures FindById(xs, id) == FindById(ys, id)
  {
    Lookup.SameKeysSameIndex(xs, ys, OrderId, id);
  }

  /** A successful cancellation stores the code and the table's description of it, or the default. */
  lemma CancelRecordsReason(s: Store, orderId: string, code: string, reply: Reply<()>, now: int)
    requires var r := RunAction(s, orderId, CancellationAction(code), reply, now);
             r.0.Handled? && r.0.response.success
    ensures FindById(s.orders, orderId).Some?
    ensures var t := RunAction(s, orderId, CancellationAction(code), reply, now).1;
            var o := t.orders[FindById(s.orders, orderId).value];
            && o.status == Cancelled && o.cancelledAt == Some(now) && o.cancellationCode == Some(code)
            && (forall k :: 0 <= k < 10 && CancellationReasons[k].code == code ==>
                  o.cancellationReason == Some(CancellationReasons[k].description))
            && ((forall k :: 0 <= k < 10 ==> CancellationReasons[k].code != code) ==>
                  o.cancellationReason == Some(UnspecifiedReason))
  {
    SucceededAction(s, orderId, CancellationAction(code), reply, now);
    var i := FindById(s.orders, orderId).value;
    var o := RunAction(s, orderId, CancellationAction(code), reply, now).1.orders[i];
    assert o == Applied(s.orders[i], CancellationAction(code), now);
    ReasonStored(o, code, now);
  }

  /** An order cancelled with `code` carries the table's description of it, or the default. */
  lemma ReasonStored(o: Order, code: string, now: int)
    requires o.cancellationReason == Some(ReasonFor(code))
    ensures (forall k :: 0 <= k < 10 && CancellationReasons[k].code == code ==>
              o.cancellationReason == Some(CancellationReasons[k].description))
    ensures (forall k :: 0 <= k < 10 ==> CancellationReasons[k].code != code) ==>
              o.cancellationReason == Some(UnspecifiedReason)
  {
    ReasonForLookup(code);
    CancellationCodes();
  }

  /**
   * Dispatch has no status guard: a `CONCLUDED` order is dispatched again once the marketplace
   * accepts the call.
   */
  lemma DispatchAfterConcluded(s: Store, orderId: string, now: int)
    requires FindById(s.orders, orderId).Some?
    requires s.orders[FindById(s.orders, orderId).value].status == Concluded
    ensures var i := FindById(s.orders, orderId).value;
            var r := RunAction(s, orderId, DispatchAction, Response(200, (), ""), now);
            && r.0 == Handled(Succeeded("Pedido despachado", Some(ActionResult(s.orders[i].ifoodId, "dispatched", None))))
            && r.1.orders[i].status == Dispatched
  {
  }
}
