/**
  The API client of src/api.js: the endpoint table (`AuthApi`,
  `RestaurantsApi`, `OrdersApi`, `OrdersPanelApi`), the decisions `apiFetch`
  takes around a request (which headers it sends, which message a failure
  carries, whether a success is returned parsed or raw) and the report
  download. `fetch` itself is not modelled: what it settles with is the
  parameter `reply`. Request bodies are the values handed to
  `JSON.stringify`, not their text.
 */
module Api {
  import opened Js

  const ApiBaseUrl := "https://dellytmf.onrender.com"
  const ContentTypeHeader := "Content-Type"
  const AuthorizationHeader := "Authorization"
  const JsonMediaType := "application/json"
  const DefaultErrorMessage := "Error en la solicitud"
  const CsvReportPath := "/api/Reports/orders/csv"
  const CsvErrorMessage := "Error al descargar el reporte"
  const CsvFileName := "orders-report.csv"

  datatype HttpMethod = GET | POST | PUT

  /**
    The `options` argument of `apiFetch`. Its `method` is the field `verb`: a
    missing `method` is GET, what `fetch` does without one. A missing `body`
    is `None`; missing `headers` are the empty map.
   */
  datatype Options = Options(verb: HttpMethod, body: Option<Value>, headers: map<string, string>)

  const NoOptions := Options(GET, None, map[])

  /** A call of `apiFetch(path, options)`. */
  datatype Endpoint = Endpoint(path: string, options: Options)

  /** One entry of the `items` of a new order. */
  datatype OrderItem = OrderItem(productId: int, quantity: int)

  function PostJson(path: string, fields: map<string, Value>): Endpoint {
    Endpoint(path, Options(POST, Some(Obj(fields)), map[]))
  }

  /** A path with an id as one of its segments, as a template literal prints it. */
  function IdPath(prefix: string, id: int, suffix: string): string {
    prefix + Decimal(id) + suffix
  }

  /** Recognises a path built by `IdPath(prefix, _, suffix)` and reads its id back. */
  function ParseIdPath(prefix: string, suffix: string, path: string): Option<int> {
    if |prefix| + |suffix| <= |path| && path[..|prefix|] == prefix && path[|path| - |suffix|..] == suffix
    then ParseDecimal(path[|prefix|..|path| - |suffix|])
    else None
  }

  lemma IdPathRoundTrip(prefix: string, id: int, suffix: string)
    ensures ParseIdPath(prefix, suffix, IdPath(prefix, id, suffix)) == Some(id)
  {
    var path := IdPath(prefix, id, suffix);
    assert path[..|prefix|] == prefix;
    assert path[|path| - |suffix|..] == suffix;
    assert path[|prefix|..|path| - |suffix|] == Decimal(id);
    DecimalRoundTrip(id);
  }

  // AuthApi
  function AuthLogin(email: string, password: string): Endpoint {
    PostJson("/api/Auth/login", map["email" := Str(email), "password" := Str(password)])
  }

  function AuthRegisterCustomer(fullName: string, email: string, password: string): Endpoint {
    PostJson("/api/Auth/register/customer",
             map["fullName" := Str(fullName), "email" := Str(email), "password" := Str(password)])
  }

  // RestaurantsApi
  function RestaurantsGetAll(): Endpoint {
    Endpoint("/api/Restaurants", NoOptions)
  }

  function RestaurantsCreate(name: string, address: string): Endpoint {
    PostJson("/api/Restaurants", map["name" := Str(name), "address" := Str(address)])
  }

  function RestaurantsGetMenu(restaurantId: int): Endpoint {
    Endpoint(IdPath("/api/Restaurants/", restaurantId, "/menu"), NoOptions)
  }

  /** `price` is the number `Number(price)` gives. */
  function RestaurantsAddProduct(restaurantId: int, name: string, description: string, price: int): Endpoint {
    PostJson(IdPath("/api/Restaurants/", restaurantId, "/products"),
             map["name" := Str(name), "description" := Str(description), "price" := Num(price)])
  }

  // OrdersApi
  function ItemValue(item: OrderItem): Value {
    Obj(map["productId" := Num(item.productId), "quantity" := Num(item.quantity)])
  }

  function OrdersCreateOrder(restaurantId: int, deliveryAddress: string, items: seq<OrderItem>): Endpoint {
    PostJson("/api/Orders",
             map["restaurantId" := Num(restaurantId),
                 "deliveryAddress" := Str(deliveryAddress),
                 "items" := Arr(seq(|items|, k requires 0 <= k < |items| => ItemValue(items[k])))])
  }

  function OrdersGetMyOrders(): Endpoint {
    Endpoint("/api/Orders/my", NoOptions)
  }

  // OrdersPanelApi
  function OrdersPanelGetAll(): Endpoint {
    Endpoint("/api/OrdersPanel/all", NoOptions)
  }

  function OrdersPanelGetPending(): Endpoint {
    Endpoint("/api/OrdersPanel/pending", NoOptions)
  }

  function OrdersPanelAssign(id: int): Endpoint {
    Endpoint(IdPath("/api/OrdersPanel/", id, "/assign"), Options(PUT, Some(Obj(map[])), map[]))
  }

  function OrdersPanelDelivered(id: int): Endpoint {
    Endpoint(IdPath("/api/OrdersPanel/", id, "/delivered"), Options(PUT, Some(Obj(map[])), map[]))
  }

  /**
    The id-scoped endpoints carry the id as a path segment from which it can
    be read back, so two different ids never share a path; assigning and
    marking delivered are PUT requests with an empty object as body.
   */
  lemma IdScopedEndpoints(id: int, other: int, name: string, description: string, price: int)
    ensures ParseIdPath("/api/Restaurants/", "/menu", RestaurantsGetMenu(id).path) == Some(id)
    ensures ParseIdPath("/api/Restaurants/", "/products", RestaurantsAddProduct(id, name, description, price).path) == Some(id)
    ensures ParseIdPath("/api/OrdersPanel/", "/assign", OrdersPanelAssign(id).path) == Some(id)
    ensures ParseIdPath("/api/OrdersPanel/", "/delivered", OrdersPanelDelivered(id).path) == Some(id)
    ensures RestaurantsGetMenu(id).options.verb == GET
    ensures RestaurantsAddProduct(id, name, description, price).options.verb == POST
    ensures OrdersPanelAssign(id).options == OrdersPanelDelivered(id).options == Options(PUT, Some(Obj(map[])), map[])
    ensures id != other ==> RestaurantsGetMenu(id).path != RestaurantsGetMenu(other).path
    ensures id != other ==>
              RestaurantsAddProduct(id, name, description, price).path != RestaurantsAddProduct(other, name, description, price).path
    ensures id != other ==> OrdersPanelAssign(id).path != OrdersPanelAssign(other).path
    ensures id != other ==> OrdersPanelDelivered(id).path != OrdersPanelDelivered(other).path
  {
    IdPathRoundTrip("/api/Restaurants/", id, "/menu");
    IdPathRoundTrip("/api/Restaurants/", id, "/products");
    IdPathRoundTrip("/api/OrdersPanel/", id, "/assign");
    IdPathRoundTrip("/api/OrdersPanel/", id, "/delivered");
    IdPathRoundTrip("/api/Restaurants/", other, "/menu");
    IdPathRoundTrip("/api/Restaurants/", other, "/products");
    IdPathRoundTrip("/api/OrdersPanel/", other, "/assign");
    IdPathRoundTrip("/api/OrdersPanel/", other, "/delivered");
  }

  /**
    What every entry of the `*Api` objects has in common: a path under
    "/api/", no headers of its own, and a JSON object as body exactly when it
    is not a GET.
   */
  predicate WellShaped(e: Endpoint) {
    && "/api/" <= e.path
    && e.options.headers == map[]
    && (e.options.verb == GET <==> e.options.body.None?)
    && (e.options.body.Some? ==> e.options.body.value.Obj?)
  }

  lemma IdPathUnderApi(prefix: string, id: int, suffix: string)
    requires "/api/" <= prefix
    ensures "/api/" <= IdPath(prefix, id, suffix)
  {
    assert IdPath(prefix, id, suffix)[..|prefix|] == prefix;
  }

  /** Every endpoint of the client is well shaped, whatever its arguments. */
  lemma EndpointTableWellShaped(email: string, password: string, fullName: string, name: string, address: string,
                                description: string, price: int, id: int, deliveryAddress: string, items: seq<OrderItem>)
    ensures WellShaped(AuthLogin(email, password))
    ensures WellShaped(AuthRegisterCustomer(fullName, email, password))
    ensures WellShaped(RestaurantsGetAll()) && WellShaped(RestaurantsCreate(name, address))
    ensures WellShaped(RestaurantsGetMenu(id)) && WellShaped(RestaurantsAddProduct(id, name, description, price))
    ensures WellShaped(OrdersCreateOrder(id, deliveryAddress, items)) && WellShaped(OrdersGetMyOrders())
    ensures WellShaped(OrdersPanelGetAll()) && WellShaped(OrdersPanelGetPending())
    ensures WellShaped(OrdersPanelAssign(id)) && WellShaped(OrdersPanelDelivered(id))
  {
    IdPathUnderApi("/api/Restaurants/", id, "/menu");
    IdPathUnderApi("/api/Restaurants/", id, "/products");
    IdPathUnderApi("/api/OrdersPanel/", id, "/assign");
    IdPathUnderApi("/api/OrdersPanel/", id, "/delivered");
  }

  /** A new order's body lists one `{ productId, quantity }` object per item, in the items' order. */
  lemma CreateOrderBody(restaurantId: int, deliveryAddress: string, items: seq<OrderItem>)
    ensures var e := OrdersCreateOrder(restaurantId, deliveryAddress, items);
            && e.path == "/api/Orders" && e.options.verb == POST
            && e.options.body.Some? && e.options.body.value.Obj?
            && (var fields := e.options.body.value.props;
               && fields.Keys == {"restaurantId", "deliveryAddress", "items"}
               && fields["restaurantId"] == Num(restaurantId)
               && fields["deliveryAddress"] == Str(deliveryAddress)
               && fields["items"].Arr? && |fields["items"].items| == |items|
               && forall k :: 0 <= k < |items| ==>
                    fields["items"].items[k] == Obj(map["productId" := Num(items[k].productId),
                                                        "quantity" := Num(items[k].quantity)]))
  {
  }

  // ---------------------------------------------------------------------
  // apiFetch

  /** What `response.json()` gives: the parsed value, or the reason it rejects. */
  datatype JsonBody = Parsed(value: Value) | Unparseable(reason: string)

  /** What `fetch` settles with: a rejection (with its message) or a response. */
  datatype Reply =
    | NetworkFailure(reason: string)
    | Response(ok: bool, contentType: Option<string>, body: JsonBody)

  /** What is handed to `fetch`. */
  datatype Request = Request(url: string, verb: HttpMethod, headers: map<string, string>, body: Option<Value>)

  /** How a call of `apiFetch` settles: a parsed JSON value, the raw response, or an error with its message. */
  datatype Outcome = Json(value: Value) | Raw(response: Reply) | Thrown(message: string)

  /** `localStorage.getItem("token")` is truthy: present and not empty. */
  predicate TokenPresent(stored: Option<string>) {
    stored.Some? && stored.value != ""
  }

  /** Header `name` is in `headers` exactly when the caller gave it, with the caller's value. */
  predicate KeptAsGiven(headers: map<string, string>, given: map<string, string>, name: string) {
    && (name in headers <==> name in given)
    && (name in given ==> headers[name] == given[name])
  }

  /**
    The message of a failed response: the body's `error` when it is truthy,
    else its `message` when that is, else the generic message; a body that is
    not JSON, or is not an object, leaves the generic message.
   */
  function FailureMessage(body: JsonBody): string {
    if body.Parsed? && HasTruthyProp(body.value, "error") then ToJsString(body.value.props["error"])
    else if body.Parsed? && HasTruthyProp(body.value, "message") then ToJsString(body.value.props["message"])
    else DefaultErrorMessage
  }

  /** The response declares a JSON body: it has a `content-type` that contains "application/json". */
  predicate DeclaresJson(contentType: Option<string>) {
    contentType.Some? && Includes(contentType.value, JsonMediaType)
  }

  /**
    `apiFetch(path, options)` with the stored token `stored` and what `fetch`
    settles with, `reply`. Headers: `Content-Type: application/json` unless the
    caller overrides it, every caller header, and `Authorization: Bearer
    <token>` exactly when a token is stored, over any caller value.
   */
  method ApiFetch(path: string, options: Options, stored: Option<string>, reply: Reply)
    returns (request: Request, outcome: Outcome)
    ensures request.url == ApiBaseUrl + path
    ensures request.verb == options.verb && request.body == options.body
    ensures ContentTypeHeader in request.headers
    ensures request.headers[ContentTypeHeader] ==
              if ContentTypeHeader in options.headers then options.headers[ContentTypeHeader] else JsonMediaType
    ensures TokenPresent(stored) ==>
              AuthorizationHeader in request.headers && request.headers[AuthorizationHeader] == "Bearer " + stored.value
    ensures !TokenPresent(stored) ==> KeptAsGiven(request.headers, options.headers, AuthorizationHeader)
    ensures forall name :: name != ContentTypeHeader && name != AuthorizationHeader ==>
              KeptAsGiven(request.headers, options.headers, name)
    ensures reply.NetworkFailure? ==> outcome == Thrown(reply.reason)
    ensures reply.Response? && !reply.ok ==> outcome == Thrown(FailureMessage(reply.body))
    ensures reply.Response? && reply.ok && !DeclaresJson(reply.contentType) ==> outcome == Raw(reply)
    ensures reply.Response? && reply.ok && DeclaresJson(reply.contentType) ==>
              outcome == if reply.body.Parsed? then Json(reply.body.value) else Thrown(reply.body.reason)
  {
    var headers := map[ContentTypeHeader := JsonMediaType] + options.headers;
    if stored.Some? && Truthy(Str(stored.value)) {
      headers := headers[AuthorizationHeader := "Bearer " + stored.value];
    }
    request := Request(ApiBaseUrl + path, options.verb, headers, options.body);
    match reply {
      case NetworkFailure(reason) =>
        outcome := Thrown(reason);
      case Response(ok, contentType, body) =>
        if !ok {
          var message := Str(DefaultErrorMessage);
          // Reading `error` of a `null` body throws inside the `try`: the message stays the default.
          if body.Parsed? && !Nullish(body.value) {
            message := Or(Or(Prop(body.value, "error"), Prop(body.value, "message")), message);
          }
          outcome := Thrown(ToJsString(message));
        } else if contentType.Some? && Truthy(Str(contentType.value)) && Includes(contentType.value, JsonMediaType) {
          match body {
            case Parsed(value) => outcome := Json(value);
            case Unparseable(reason) => outcome := Thrown(reason);
          }
        } else {
          outcome := Raw(reply);
        }
    }
  }

  /** The example of a rejected login: a 400 whose body is `{ "error": "Invalid credentials" }`. */
  lemma InvalidCredentialsExample()
    ensures FailureMessage(Parsed(Obj(map["error" := Str("Invalid credentials")]))) == "Invalid credentials"
  {
  }

  // ---------------------------------------------------------------------
  // ReportsApi.downloadCsv

  /** How the report download ends: the file saved under its name, or an error with its message. */
  datatype Download = Saved(fileName: string) | Failed(message: string)

  /**
    `ReportsApi.downloadCsv()`: a GET whose only header is `Authorization`,
    built from the stored token even when there is none (the template literal
    then prints "null"); any response that is not ok fails with one fixed
    message, whatever its body.
   */
  method DownloadCsv(stored: Option<string>, reply: Reply) returns (request: Request, result: Download)
    ensures request.url == ApiBaseUrl + CsvReportPath && request.verb == GET && request.body == None
    ensures request.headers.Keys == {AuthorizationHeader}
    ensures request.headers[AuthorizationHeader] == "Bearer " + if stored.Some? then stored.value else "null"
    ensures reply.NetworkFailure? ==> result == Failed(reply.reason)
    ensures reply.Response? && !reply.ok ==> result == Failed(CsvErrorMessage)
    ensures reply.Response? && reply.ok ==> result == Saved(CsvFileName)
  {
    var token := if stored.Some? then Str(stored.value) else Null;
    request := Request(ApiBaseUrl + CsvReportPath, GET, map[AuthorizationHeader := "Bearer " + ToJsString(token)], None);
    match reply {
      case NetworkFailure(reason) =>
        result := Failed(reason);
      case Response(ok, _, _) =>
        if !ok {
          result := Failed(CsvErrorMessage);
        } else {
          result := Saved(CsvFileName);
        }
    }
  }
}
