# DellyTMF client: a verified model of its decision logic

DellyTMF's web client (a React front end for a food-delivery service) is mostly
rendering and request plumbing. This project models the parts of it that make
decisions and proves what they promise:

- **The customer's cart** (module `Cart`, `cart.dfy`). `addToCart`, `updateQty`
  and `total` are pure functions on an ordered list of `{ product, quantity }`
  lines. The lemmas prove that:
  - ids stay unique and every quantity stays positive;
  - `updateQty` keeps the order of the surviving lines;
  - each update changes the total by exactly the changed line's difference.
- **The customer's restaurant panel** (module `Customer`, `customer.dfy`). The
  class `CustomerPanel` holds the selection, the cart, the delivery address and
  the placing flag. Its `PlaceOrder` runs the three checks in order. It then
  either makes no call, or sends the order and clears or keeps the cart and
  address depending on the outcome.
- **Token decoding** (module `Token`, `token.dfy`). `decodeToken` reads a
  JWT's payload segment; the token is in the compact serialization of section
  7.1 of RFC 7515. Base64 decoding plus `JSON.parse` is an abstract partial
  function `decodePayload`. The lemmas prove that:
  - decoding is total;
  - each claim's fallback chain is as written;
  - any failure gives the Customer default.
- **The session** (module `Session`, `session.dfy`). The class `App` holds the
  session, the view, the loading flag, the error and the stored token. Its
  methods are start-up restore, `handleLogin`, `handleRegister` and `handleLogout`. `Dashboard`
  routes a role to a view. The login-then-reload and logout-then-reload
  scenarios are proved.
- **The API client** (module `Api`, `api.dfy`):
  - the endpoint table of `api.js`;
  - `apiFetch`: header assembly, the message of a failed response, and parsed
    versus raw success;
  - the failure check of the CSV report download.

`fetch` is not modelled. What it settles with is a parameter: a network
failure, or a response with its `ok` flag, its content type and its body as
`response.json()` would give it. Likewise, the outcome of an API call is a
parameter of the component methods that make one.

JavaScript's own rules are written out in module `Js` (`js.dfy`):
- truthiness and `||`;
- property reads, including the TypeError on `null`/`undefined`;
- `String(v)`;
- `trim`, with the ECMAScript white-space set;
- `includes`;
- decimal printing of integers;
- the one inherited property among the keys the client reads: every string
  has `sub` (the legacy method `String.prototype.sub`), so a token payload
  that parses to a JSON string gets that method as its email.

In these places the code does something one might not expect, and the model follows the code:
- A role is whatever JSON value the token carries, not one of three names.
  Routing compares it with `=== "Admin"` and `=== "Driver"`; any other value,
  including a non-string, gets the customer's view.
- A stored token is restored whenever it is a non-empty string, even when it
  does not decode. It then gets the default identity.
- `apiFetch` leaves a caller-given `Authorization` header in place when no
  token is stored. Without a stored token and without a caller value, the
  request has no `Authorization` header.
- The CSV download always sends `Authorization`. With no stored token it sends
  `Bearer null`.
- The login-then-reload round trip keeps the identity for a string token. The
  session keeps the token value as the server sent it, while storage keeps
  `String(token)`. For a non-string token the two can decode differently.

## Model

| member | source | states |
|---|---|---|
| Js.Trim | src/App.jsx:354 | `address.trim()` (also at src/App.jsx:368): the result is empty exactly when every character is white space; otherwise it starts and ends with a non-space, is the slice of the input after its leading spaces, and only spaces follow it |
| Js.ToJsString | src/App.jsx:61 | `String(v)`, as `localStorage.setItem` stores a token (and as `new Error` at src/api.js:28 and the CSV header at src/api.js:96 print a value): a string is its own text, a number prints in a form that reads back as that number, and only the empty string and arrays print as "" |
| Js.Includes | src/api.js:32 | `contentType.includes("application/json")`; its contract is stated by Js.IncludesIffSlice |
| Js.IncludesIffSlice | src/api.js:32 | `includes` holds exactly when the part occurs as a contiguous slice of the string |
| Js.Prop | src/App.jsx:14-19 | a property read finds a value only as an own property of a parsed object, or as the inherited `sub` of a string |
| Js.DecimalRoundTrip | src/api.js:59 | the decimal form a template literal prints for an integer id reads back as that id |
| Token.PayloadSegment | src/App.jsx:12 | `token.split(".")[1]` exists exactly when the token contains a dot; it is the text after the first dot up to the next dot or the end (so `"h.p"` gives `"p"`), and contains no dot itself |
| Token.CompactSerializationPayload | src/App.jsx:12 | for `header.payload.signature` with dot-free header and payload, the segment handed to the decoder is exactly the payload |
| Token.Payload | src/App.jsx:11-13 | a non-string token or one without a dot has no payload; for a string token with a dot the payload is exactly the decoder's reading of the segment after the first dot |
| Token.DecodeToken | src/App.jsx:10-24 | decoding is total: for every token value and every decoder the role is truthy, and full name and email are each truthy or "" |
| Token.DecodeTokenFallbacks | src/App.jsx:13-22 | no payload or a `null` payload gives `{Customer, "", ""}`; for an object payload, role comes from `role`, then the Microsoft role claim, then "Customer"; full name from `fullName`, then `name`, then ""; email from `email`, then `sub`, then "". Any other payload gives `{Customer, "", ""}`, except that a string payload's email is the inherited `String.prototype.sub` |
| Token.AdminTokenExample | src/App.jsx:10-24 | a token whose payload holds role "Admin" and email "a@x.com" decodes to `{Admin, "", "a@x.com"}` |
| Token.StringPayloadExample | src/App.jsx:18-19 | a token `h.p.s` whose payload parses to the JSON string "x" decodes to role "Customer", full name "" and, as email, the method `String.prototype.sub` |
| Cart.Ids | src/App.jsx:324 | the product ids of the cart, one per line, in cart order |
| Cart.IndexOf | src/App.jsx:324 | `findIndex`: -1 exactly when no line has the id, else a line with that id and no earlier one |
| Cart.SetQuantity | src/App.jsx:337-339 | the `map` step: same length, lines of that id get the new quantity, every other line is unchanged |
| Cart.DropEmpty | src/App.jsx:340 | the `filter` step: every quantity left is positive and no line is added |
| Cart.DropEmptyMembers | src/App.jsx:340 | a line survives the filter exactly when it was in the cart with a positive quantity |
| Cart.AddToCart | src/App.jsx:322-331 | `addToCart`; its contract is stated by Cart.AddExisting, Cart.AddNew, Cart.AddPreservesWellFormed and Cart.AddToCartTotal |
| Cart.UpdateQty | src/App.jsx:334-342 | `updateQty` leaves only positive quantities and never lengthens the cart; the rest of its contract is stated by Cart.UpdateQtyLines, Cart.UpdateQtyKeepsOrder, Cart.UpdateQtyPreservesWellFormed and Cart.UpdateQtyTotal |
| Cart.Total | src/App.jsx:344-347 | `total`, a left fold; its contract is stated by Cart.TotalIsSum and Cart.TotalNonNegative |
| Cart.AddExisting | src/App.jsx:322-329 | adding a product already in the cart adds 1 to its line's quantity; length, order and every other line are unchanged |
| Cart.AddNew | src/App.jsx:324-330 | adding a product not in the cart appends `{p, 1}` at the end |
| Cart.AddPreservesWellFormed | src/App.jsx:322-331 | adding keeps ids unique and quantities positive |
| Cart.AddTwice | src/App.jsx:322-331 | adding the same new product twice yields one line of quantity 2, never two lines |
| Cart.UpdateQtyKeepsOrder | src/App.jsx:334-342 | the ids after `updateQty` are a subsequence of the ids before: survivors keep their relative order |
| Cart.UpdateQtyPreservesWellFormed | src/App.jsx:334-342 | on a cart with unique ids, `updateQty` leaves unique ids, only positive quantities, and the old order |
| Cart.UpdateQtyLines | src/App.jsx:334-342 | each line of the old cart is in the new one, with its quantity updated when it has the id, exactly when that quantity is positive |
| Cart.UpdateQtyRemoves | src/App.jsx:334-342 | setting a quantity to zero or below removes the product from the cart |
| Cart.UpdateQtyAbsent | src/App.jsx:334-342 | updating a product that has no line leaves a cart of positive quantities as it is |
| Cart.TotalIsSum | src/App.jsx:344-347 | the total is the sum of price × quantity over the lines: an empty cart totals 0, a one-line cart its line, and totals add up over any split |
| Cart.TotalNonNegative | src/App.jsx:344-347 | with no negative price and only positive quantities, the total is not negative |
| Cart.TotalAppend | src/App.jsx:344-347 | the total of two carts put together is the sum of their totals |
| Cart.TotalReplace | src/App.jsx:344-347 | replacing one line changes the total by the difference of the two line totals |
| Cart.AddToCartTotal | src/App.jsx:322-347 | adding a product raises the total by one unit price of the product whose line it lands in (0 for a missing price) |
| Cart.UpdateQtyTotal | src/App.jsx:334-347 | on a well-formed cart, `updateQty(id, q)` changes the total by the updated line's new total (0 when removed) minus its old one, and leaves it unchanged when the id has no line |
| Api.AuthLogin | src/api.js:40-44 | POST of `{email, password}` to "/api/Auth/login"; stated well shaped by Api.EndpointTableWellShaped |
| Api.AuthRegisterCustomer | src/api.js:45-49 | POST of `{fullName, email, password}` to "/api/Auth/register/customer"; stated well shaped by Api.EndpointTableWellShaped |
| Api.RestaurantsGetAll | src/api.js:53 | GET of "/api/Restaurants"; stated well shaped by Api.EndpointTableWellShaped |
| Api.RestaurantsCreate | src/api.js:54-58 | POST of `{name, address}` to "/api/Restaurants"; stated well shaped by Api.EndpointTableWellShaped |
| Api.RestaurantsGetMenu | src/api.js:59 | GET of the restaurant's menu path; its id round trip is stated by Api.IdScopedEndpoints |
| Api.RestaurantsAddProduct | src/api.js:60-64 | POST of `{name, description, price}` to the restaurant's products path; its id round trip is stated by Api.IdScopedEndpoints |
| Api.OrdersCreateOrder | src/api.js:68-72 | POST of a new order; its body is stated by Api.CreateOrderBody |
| Api.OrdersGetMyOrders | src/api.js:73 | GET of "/api/Orders/my"; stated well shaped by Api.EndpointTableWellShaped |
| Api.OrdersPanelGetAll | src/api.js:77 | GET of "/api/OrdersPanel/all"; stated well shaped by Api.EndpointTableWellShaped |
| Api.OrdersPanelGetPending | src/api.js:78 | GET of "/api/OrdersPanel/pending"; stated well shaped by Api.EndpointTableWellShaped |
| Api.OrdersPanelAssign | src/api.js:79-83 | PUT with `{}` to the order's assign path; stated by Api.IdScopedEndpoints |
| Api.OrdersPanelDelivered | src/api.js:84-88 | PUT with `{}` to the order's delivered path; stated by Api.IdScopedEndpoints |
| Api.IdPathRoundTrip | src/api.js:59 | an id embedded between a path prefix and suffix reads back from the path |
| Api.IdScopedEndpoints | src/api.js:59-88 | the menu, products, assign and delivered paths carry the id as a segment, so different ids give different paths; assign and delivered are PUT with an empty-object body |
| Api.EndpointTableWellShaped | src/api.js:39-89 | every endpoint is under "/api/", passes no headers of its own, and has a JSON object body exactly when it is not a GET |
| Api.CreateOrderBody | src/api.js:67-72 | a new order posts to "/api/Orders" a body with exactly `restaurantId`, `deliveryAddress` and `items`, one `{productId, quantity}` per item in order |
| Api.ApiFetch | src/api.js:3-37 | `Content-Type: application/json` unless the caller overrides it; every other caller header is kept; `Authorization: Bearer <token>` exactly when a non-empty token is stored, over any caller value. A network failure rethrows; a non-ok response throws the body's `error`, else `message`, else "Error en la solicitud"; an ok response is parsed exactly when its content type contains "application/json", else returned raw |
| Api.InvalidCredentialsExample | src/api.js:20-29 | a failed response with body `{ error: "Invalid credentials" }` throws "Invalid credentials" |
| Api.DownloadCsv | src/api.js:91-100 | the report request's only header is `Authorization: Bearer <stored or "null">`; a non-ok response fails with "Error al descargar el reporte", whatever its body; an ok one saves "orders-report.csv" |
| Customer.OrderItems | src/App.jsx:362-365 | one `{productId, quantity}` per cart line, in cart order |
| Customer.CustomerPanel.constructor | src/App.jsx:283-288 | the panel starts with no selection, an empty cart, no address and not placing |
| Customer.CustomerPanel.SelectRestaurant | src/App.jsx:307-308 | selecting a restaurant sets the selection and keeps the cart and address |
| Customer.CustomerPanel.SetAddress | src/App.jsx:501 | the address input replaces the address and nothing else |
| Customer.CustomerPanel.AddToCart | src/App.jsx:322-331 | the cart becomes `addToCart` of the old cart and stays well formed; nothing else changes |
| Customer.CustomerPanel.UpdateQty | src/App.jsx:334-342 | the cart becomes `updateQty` of the old cart and stays well formed; nothing else changes |
| Customer.CustomerPanel.Total | src/App.jsx:344-347 | the panel's total is the total of its cart, and never negative when no price is |
| Customer.CustomerPanel.PlaceOrder | src/App.jsx:349-378 | checks run in order (restaurant, trimmed address, non-empty cart); the first that fails is reported with its own message, and there is no call and no change. Otherwise it sends the trimmed address and the cart's items. Success clears cart and address; failure keeps them and reports "Error al crear el pedido: " + message. The placing flag is false on entry, since the confirm button is disabled while it is set (src/App.jsx:508), and it ends false in every case |
| Session.Dashboard | src/App.jsx:245-251 | no session gives no dashboard; role "Admin" gives AdminView, "Driver" DriverView, and every other role value CustomerView, each as an if-and-only-if |
| Session.LoginData | src/App.jsx:58 | the `data` of the login handler is the parsed body of a JSON reply; for a reply that was not JSON it is the `Response` object, which is never nullish and never yields a truthy token |
| Session.NullishReadMessage | src/App.jsx:59 | reading `token` of a `null` or `undefined` body throws "Cannot read properties of null (reading 'token')", respectively of undefined |
| Session.LoginToken | src/App.jsx:59 | the token is truthy exactly when one of `token`, `accessToken`, `jwt` is; it is the first truthy one of them in that order |
| Session.App.constructor | src/App.jsx:33-36 | the app starts signed out on the auth view, not loading, with no error |
| Session.App.RestoreSession | src/App.jsx:44-51 | a stored non-empty token becomes the session `{token, ...decodeToken(token)}` and opens the dashboard; otherwise nothing changes |
| Session.App.Login | src/App.jsx:53-70 | with a usable token: stores `String(token)`, sets the decoded session, opens the dashboard, clears the error. Otherwise storage, session and view are unchanged, and the error is the call's message, the TypeError of reading a `null` body, or "No se recibió token desde el backend". Loading ends false |
| Session.App.Register | src/App.jsx:72-91 | calls the register endpoint; clears the error and sets loading first; a failed call sets the error to its message and shows no alert, a successful one shows "Cuenta de consumidor creada. Ahora inicia sesión." with the error clear; storage, session and view never change; loading ends false |
| Session.App.Logout | src/App.jsx:93-97 | logout removes the stored token, clears the session and returns to the auth view |
| Session.App.CurrentScreen | src/App.jsx:126-145 | the auth screen exactly when there is no session or the view is "auth", else the session's dashboard |
| Session.LoginThenReload | src/App.jsx:44-70 | after a login whose reply delivers a string token (under `token`, `accessToken` or `jwt`, with any other fields beside it), a reloaded app restores the same session and shows the same dashboard |
| Session.LogoutThenReload | src/App.jsx:44-97 | after a logout, a reloaded app finds no token and shows the auth screen |

## Left out

- Rendering is not modelled: the JSX, tabs, `AuthScreen`'s inputs, the user badge and role labels, loading texts and `alert` dialogs. An alert's text is the `notice` out-parameter of `PlaceOrder`.
- The auth form's input fields are not modelled: `handleLogin` and `handleRegister` take their inputs as parameters, and `handleRegister` resetting its three inputs after success is left out with the rest of the rendering.
- Customer.CustomerPanel.SelectRestaurant: the menu loading that follows the selection (`getMenu`, the menu and its loading flag) is left out; it only reloads displayed data.
- The restaurant list, the customer's orders, the driver and admin panels, `Promise.all` and the `!selected` guard of the admin product form are left out. They are call-then-reload plumbing.
- `fetch`, `localStorage`, `atob` and `JSON.parse` are not modelled. They are the `Reply` parameter, the `storage` field and the `decodePayload` parameter.
- `atob` decodes the standard base64 alphabet, not the base64url alphabet of JWTs. Which payloads decode is entirely up to `decodePayload`.
- Asynchronous interleaving is not modelled: each handler runs to completion against one given outcome. Cart changes made while an order is in flight are not modelled.
- Prices are whole cents and JSON numbers are integers. Floating point, `Number(price)` and `toFixed(2)` are left out.
- Js.ToJsString: objects are assumed to have no own `toString`. A parsed object can have one (`JSON.parse('{"toString":1}')`); it is not callable, the inherited `valueOf` returns the object itself, and then `String()` throws a TypeError. So the model prints "[object Object]" where `localStorage.setItem` (src/App.jsx:61) or `new Error(message)` (src/api.js:28) would throw on such a token or error value.
- Js.ToJsString: a built-in method prints as `function sub() { [native code] }`; the exact text is engine-defined.
- Js.DecimalRoundTrip: ids and JSON numbers are assumed to be safe integers (below 2^53). From 10^21 on JavaScript prints exponent form, which `Decimal` does not model.
- Session.NullishReadMessage: the TypeError text for reading a property of `null` is engine-defined; the model uses V8's wording.
- Api.ApiFetch: header names are exact map keys. `fetch`'s case-insensitive merging of, say, `content-type` with `Content-Type` is left out.
- Api.DownloadCsv: the Blob, the object URL and the temporary link element are left out; a successful download is `Saved("orders-report.csv")`.
