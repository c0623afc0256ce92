/**
 * The marketplace client of backend/ifood_client.py: the cached access token and the way each
 * gateway call turns an HTTP reply into a result or an error.
 */
module Client {
  import opened Wrappers
  import opened Models
  import Text

  // ==================== HTTP REPLIES ====================

  /**
   * What a call to the marketplace gives back: a response with its status code, its decoded
   * body and its text (which also stands for the message of the status error a non-2xx
   * response raises), or a failure that raised before any response arrived.
   */
  datatype Reply<T> = Response(status: int, body: T, text: string) | Failure(message: string)

  /** httpx's `raise_for_status` passes exactly the 2xx codes. */
  predicate IsSuccess(status: int)
  {
    200 <= status < 300
  }

  /** Python truthiness of an optional string: present and not empty. */
  predicate Present(s: Option<string>)
  {
    s.Some? && s.value != ""
  }

  /** The message of the exception a failed reply raises. */
  function ErrorOf<T>(reply: Reply<T>): string
  {
    match reply
    case Response(_, _, text) => text
    case Failure(message) => message
  }

  // ==================== TOKEN CACHE ====================

  /** `timedelta(minutes=5)`: a cached token is reused only up to this many seconds before expiry. */
  const TokenMargin: int := 300
  /** The lifetime assumed when the grant omits `expiresIn`. */
  const DefaultExpiresIn: int := 3600

  /** The JSON body of the token endpoint's reply. */
  datatype TokenGrant = TokenGrant(accessToken: Option<string>, expiresIn: Option<int>, tokenType: Option<string>)

  /** The two cached fields, `_access_token` and `_token_expires_at` (seconds). */
  datatype TokenCache = TokenCache(accessToken: Option<string>, expiresAt: Option<int>)

  datatype AuthError =
    | MissingCredentials
    | Rejected(text: string)
    | Unreachable(message: string)

  function AuthErrorMessage(e: AuthError): string
  {
    match e
    case MissingCredentials => "IFOOD_CLIENT_ID e IFOOD_CLIENT_SECRET são obrigatórios"
    case Rejected(text) => "Erro de autenticação: " + text
    case Unreachable(message) => message
  }

  /** The dictionary `authenticate` returns, or the exception it raises. */
  datatype AuthOutcome =
    | Cached(cachedToken: string, expiresAt: int)
    | Refreshed(accessToken: Option<string>, expiresIn: int, expiresAt: int, tokenType: string)
    | AuthFailed(error: AuthError)

  /** `authenticate` answers from the cache: a token and an expiry exist and expiry is more than five minutes away. */
  predicate CacheHit(c: TokenCache, now: int)
  {
    Present(c.accessToken) && c.expiresAt.Some? && now < c.expiresAt.value - TokenMargin
  }

  /** `get_auth_status`'s notion of a valid token: the same test without the margin. */
  predicate TokenValid(c: TokenCache, now: int)
  {
    Present(c.accessToken) && c.expiresAt.Some? && now < c.expiresAt.value
  }

  /**
   * One call of `authenticate` at time `now`: its outcome and the cache afterwards. `reply` is
   * what the token endpoint would answer; it is consulted only when the cache cannot answer.
   */
  function Authenticated(hasCredentials: bool, c: TokenCache, now: int, reply: Reply<TokenGrant>): (r: (AuthOutcome, TokenCache))
    ensures !hasCredentials ==> r == (AuthFailed(MissingCredentials), c)
    ensures r.0.Cached? <==> hasCredentials && CacheHit(c, now)
    ensures r.0.Cached? ==> r.1 == c && r.0.expiresAt - now > TokenMargin
    ensures r.0.Cached? ==> r.0.cachedToken == c.accessToken.value && r.0.expiresAt == c.expiresAt.value
    ensures r.0.Refreshed? <==> hasCredentials && !CacheHit(c, now) && reply.Response? && IsSuccess(reply.status)
    ensures r.0.Refreshed? ==>
              && r.1 == TokenCache(reply.body.accessToken, Some(now + reply.body.expiresIn.GetOr(DefaultExpiresIn)))
              && r.0.expiresIn == reply.body.expiresIn.GetOr(DefaultExpiresIn)
              && r.0.expiresAt == now + r.0.expiresIn
              && r.0.accessToken == reply.body.accessToken
    ensures r.0.AuthFailed? ==> r.1 == c
    ensures hasCredentials && !CacheHit(c, now) && reply.Response? && !IsSuccess(reply.status) ==>
              r.0 == AuthFailed(Rejected(reply.text))
  {
    if !hasCredentials then (AuthFailed(MissingCredentials), c)
    else if CacheHit(c, now) then (Cached(c.accessToken.value, c.expiresAt.value), c)
    else match reply
      case Failure(message) => (AuthFailed(Unreachable(message)), c)
      case Response(status, grant, text) =>
        if !IsSuccess(status) then (AuthFailed(Rejected(text)), c)
        else
          var expiresIn := grant.expiresIn.GetOr(DefaultExpiresIn);
          (Refreshed(grant.accessToken, expiresIn, now + expiresIn, grant.tokenType.GetOr("Bearer")),
           TokenCache(grant.accessToken, Some(now + expiresIn)))
  }

  /** A token refreshed at `now` with lifetime `e` is reused by every call in the next `e - 300` seconds. */
  lemma RefreshedTokenIsReused(c: TokenCache, now: int, reply: Reply<TokenGrant>, later: int, reply2: Reply<TokenGrant>)
    requires Authenticated(true, c, now, reply).0.Refreshed?
    requires Present(reply.body.accessToken)
    requires now <= later < now + Authenticated(true, c, now, reply).0.expiresIn - TokenMargin
    ensures Authenticated(true, Authenticated(true, c, now, reply).1, later, reply2).0 ==
              Cached(reply.body.accessToken.value, Authenticated(true, c, now, reply).0.expiresAt)
  {
  }

  /** The margin makes the cache test strictly stronger than the status test. */
  lemma CacheHitImpliesValid(c: TokenCache, now: int)
    ensures CacheHit(c, now) ==> TokenValid(c, now)
    ensures TokenValid(c, now) && !CacheHit(c, now) <==>
              Present(c.accessToken) && c.expiresAt.Some? && c.expiresAt.value - TokenMargin <= now < c.expiresAt.value
  {
  }

  /** A token two minutes from expiry is reported valid and yet is refreshed by the next call. */
  lemma ValidTokenStillRefreshed(token: string, now: int, reply: Reply<TokenGrant>)
    requires token != ""
    ensures TokenValid(TokenCache(Some(token), Some(now + 120)), now)
    ensures !Authenticated(true, TokenCache(Some(token), Some(now + 120)), now, reply).0.Cached?
  {
  }

  /** The fields `get_auth_status` reports. */
  datatype AuthStatus = AuthStatus(
    hasCredentials: bool,
    hasToken: bool,
    tokenValid: bool,
    tokenExpiresAt: Option<int>,
    merchantId: Option<string>,
    appType: string)

  /** `IFoodClient`: the credentials read once at start-up and the token cache. */
  class IFoodClient {
    const clientId: Option<string>
    const clientSecret: Option<string>
    const merchantId: Option<string>
    var accessToken: Option<string>
    var tokenExpiresAt: Option<int>

    constructor (clientId: Option<string>, clientSecret: Option<string>, merchantId: Option<string>)
      ensures this.clientId == clientId && this.clientSecret == clientSecret && this.merchantId == merchantId
      ensures accessToken.None? && tokenExpiresAt.None?
    {
      this.clientId := clientId;
      this.clientSecret := clientSecret;
      this.merchantId := merchantId;
      accessToken := None;
      tokenExpiresAt := None;
    }

    predicate HasCredentials()
    {
      Present(clientId) && Present(clientSecret)
    }

    function Cache(): TokenCache
      reads this
    {
      TokenCache(accessToken, tokenExpiresAt)
    }

    /** `authenticate()`: answer from the cache, or exchange the credentials and store the new token. */
    method Authenticate(now: int, reply: Reply<TokenGrant>) returns (r: AuthOutcome)
      modifies this
      ensures (r, Cache()) == Authenticated(HasCredentials(), old(Cache()), now, reply)
    {
      if !HasCredentials() {
        return AuthFailed(MissingCredentials);
      }
      if Present(accessToken) && tokenExpiresAt.Some? {
        if now < tokenExpiresAt.value - TokenMargin {
          return Cached(accessToken.value, tokenExpiresAt.value);
        }
      }
      match reply {
        case Failure(message) =>
          return AuthFailed(Unreachable(message));
        case Response(status, grant, text) =>
          if !IsSuccess(status) {
            return AuthFailed(Rejected(text));
          }
          accessToken := grant.accessToken;
          var expiresIn := grant.expiresIn.GetOr(DefaultExpiresIn);
          tokenExpiresAt := Some(now + expiresIn);
          r := Refreshed(accessToken, expiresIn, now + expiresIn, grant.tokenType.GetOr("Bearer"));
      }
    }

    /** `get_auth_status()`: a read-only view of the credentials and the cache at time `now`. */
    function GetAuthStatus(now: int): (s: AuthStatus)
      reads this
      ensures s.hasCredentials <==> Present(clientId) && Present(clientSecret)
      ensures s.hasToken <==> Present(accessToken)
      ensures s.tokenValid <==> Present(accessToken) && tokenExpiresAt.Some? && now < tokenExpiresAt.value
      ensures s.tokenExpiresAt == tokenExpiresAt && s.merchantId == merchantId
    {
      AuthStatus(HasCredentials(), Present(accessToken), TokenValid(Cache(), now),
                 tokenExpiresAt, merchantId, "centralized")
    }
  }

  // ==================== REMOTE DATA ====================

  /** An event as the polling endpoint delivers it (absent keys are None). */
  datatype RemoteEvent = RemoteEvent(
    id: Option<string>,
    code: Option<string>,
    fullCode: Option<string>,
    orderId: Option<string>,
    merchantId: Option<string>,
    driver: Option<Value>)

  datatype RemoteItem = RemoteItem(
    id: Option<string>,
    name: Option<string>,
    quantity: Option<int>,
    externalCode: Option<string>,
    observations: Option<string>)

  /** The fields of an order's details that the server copies. */
  datatype RemoteOrder = RemoteOrder(
    id: Option<string>,
    displayId: Option<string>,
    orderType: Option<string>,
    salesChannel: Option<string>,
    orderTiming: Option<string>,
    customerName: Option<string>,
    items: seq<RemoteItem>,
    extraInfo: Option<string>)

  // ==================== GATEWAY REPLIES ====================

  /** The request `poll_events` issues: its headers and query parameters. */
  datatype PollQuery = PollQuery(headers: map<string, string>, params: map<string, string>)

  /** Headers and parameters of `poll_events(categories, groups)` (an empty list is as good as None). */
  function PollRequest(token: string, merchantId: Option<string>, categories: seq<string>, groups: seq<string>): (q: PollQuery)
    ensures "Authorization" in q.headers && q.headers["Authorization"] == "Bearer " + token
    ensures "x-polling-merchants" in q.headers <==> Present(merchantId)
    ensures Present(merchantId) ==> q.headers["x-polling-merchants"] == merchantId.value
    ensures q.params.Keys <= {"categories", "groups"}
    ensures "categories" in q.params <==> |categories| > 0
    ensures "groups" in q.params <==> |groups| > 0
  {
    var base := map["Authorization" := "Bearer " + token, "Content-Type" := "application/json"];
    var headers := if Present(merchantId) then base["x-polling-merchants" := merchantId.value] else base;
    var withCategories: map<string, string> := if |categories| > 0 then map["categories" := Text.Join(categories, ',')] else map[];
    var params := if |groups| > 0 then withCategories["groups" := Text.Join(groups, ',')] else withCategories;
    PollQuery(headers, params)
  }

  /** The marketplace recovers the requested categories from the parameter by splitting it at commas. */
  lemma PollCategoriesRecoverable(token: string, merchantId: Option<string>, categories: seq<string>, groups: seq<string>)
    requires |categories| > 0
    requires forall i :: 0 <= i < |categories| ==> ',' !in categories[i]
    ensures Text.Split(PollRequest(token, merchantId, categories, groups).params["categories"], ',') == categories
  {
    Text.SplitJoin(categories, ',');
  }

  /** `poll_events`: 204 means no events; any other 2xx carries them; the rest raises. */
  function PollEvents(reply: Reply<seq<RemoteEvent>>): (r: Result<seq<RemoteEvent>, string>)
    ensures reply.Response? && reply.status == 204 ==> r == Ok([])
    ensures reply.Response? && reply.status != 204 && IsSuccess(reply.status) ==> r == Ok(reply.body)
    ensures r.Err? <==> reply.Failure? || !IsSuccess(reply.status)
    ensures r.Err? ==> r.error == ErrorOf(reply)
  {
    match reply
    case Failure(message) => Err(message)
    case Response(status, events, text) =>
      if status == 204 then Ok([])
      else if !IsSuccess(status) then Err(text)
      else Ok(events)
  }

  /** `acknowledge_events`: any 2xx acknowledges; the rest raises. */
  function Acknowledge(reply: Reply<()>): (r: Result<(), string>)
    ensures r.Ok? <==> reply.Response? && IsSuccess(reply.status)
    ensures r.Err? ==> r.error == ErrorOf(reply)
  {
    if reply.Response? && IsSuccess(reply.status) then Ok(()) else Err(ErrorOf(reply))
  }

  /**
   * The dictionary `get_order_details` returns on a 404. Read as order details it has none of
   * the keys the server copies.
   */
  const NotFoundDetails: RemoteOrder := RemoteOrder(None, None, None, None, None, None, [], None)

  /** `get_order_details`: a 2xx gives the details, a 404 gives the error dictionary, the rest raises. */
  function OrderDetails(reply: Reply<RemoteOrder>): (r: Result<RemoteOrder, string>)
    ensures reply.Response? && IsSuccess(reply.status) ==> r == Ok(reply.body)
    ensures reply.Response? && reply.status == 404 ==> r == Ok(NotFoundDetails)
    ensures r.Err? <==> reply.Failure? || (!IsSuccess(reply.status) && reply.status != 404)
    ensures r.Err? ==> r.error == ErrorOf(reply)
  {
    match reply
    case Failure(message) => Err(message)
    case Response(status, details, text) =>
      if IsSuccess(status) then Ok(details)
      else if status == 404 then Ok(NotFoundDetails)
      else Err(text)
  }

  /** The order actions the gateway offers. */
  datatype OrderAction =
    | ConfirmAction
    | StartPreparationAction
    | ReadyToPickupAction
    | DispatchAction
    | CancellationAction(code: string)
    | StartSeparationAction
    | EndSeparationAction

  /** The dictionary an order action returns. */
  datatype ActionResult = ActionResult(orderId: Option<string>, status: string, message: Option<string>)

  /** The `status` an action reports after a 2xx other than a 202 that it treats specially. */
  function DoneStatus(a: OrderAction): string
  {
    match a
    case ConfirmAction => "confirmed"
    case StartPreparationAction => "preparation_started"
    case ReadyToPickupAction => "ready_to_pickup"
    case DispatchAction => "dispatched"
    case CancellationAction(_) => "cancelled"
    case StartSeparationAction => "separation_started"
    case EndSeparationAction => "separation_ended"
  }

  /**
   * `confirm_order`, `start_preparation`, `ready_to_pickup`, `dispatch_order`,
   * `request_cancellation`, `start_separation` and `end_separation`: confirmation and
   * cancellation report a 202 as pending; every other 2xx is done; the rest raises.
   */
  function ActionOutcome(a: OrderAction, orderId: Option<string>, reply: Reply<()>): (r: Result<ActionResult, string>)
    ensures r.Ok? <==> reply.Response? && IsSuccess(reply.status)
    ensures r.Ok? ==> r.value.orderId == orderId
    ensures r.Ok? && reply.status == 202 && a.ConfirmAction? ==> r.value.status == "confirmation_pending"
    ensures r.Ok? && reply.status == 202 && a.CancellationAction? ==> r.value.status == "cancellation_pending"
    ensures r.Ok? && (reply.status != 202 || !(a.ConfirmAction? || a.CancellationAction?)) ==>
              r.value.status == DoneStatus(a)
    ensures r.Err? ==> r.error == ErrorOf(reply)
  {
    match reply
    case Failure(message) => Err(message)
    case Response(status, _, text) =>
      if status == 202 && a.ConfirmAction? then
        Ok(ActionResult(orderId, "confirmation_pending", Some("Confirmação em processamento")))
      else if status == 202 && a.CancellationAction? then
        Ok(ActionResult(orderId, "cancellation_pending", None))
      else if !IsSuccess(status) then Err(text)
      else Ok(ActionResult(orderId, DoneStatus(a), None))
  }
}
