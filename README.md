# Odoo JSON-RPC decoder layer of the lab web application

The web application's `HomeController` talks to an Odoo server over
JSON-RPC 2.0. Take away the HTTP client, the cookie jar and the views, and
what remains is a small decoder layer. It turns schema-less JSON replies into
typed view models (`ProductViewModel`, `OrderViewModel`, `OrderLineViewModel`).
It also classifies every reply as a `result` value or an error. This project
models that layer in Dafny and proves what it promises.

- `json.dfy` (`Json`): JSON values as `JsonElement` exposes them. Objects keep
  their members in order, and `Lookup` returns the last member with a given
  name. Number literals are `Num(mantissa, scale)`. The module also gives the
  value's raw text.
- `coercion.dfy` (`Coercion`): the `System.Text.Json` accessors
  (`TryGetProperty`, `GetProperty`, `GetInt32`, `TryGetDecimal`, `GetString`).
  Every exception they can throw becomes an explicit error. The module also
  holds `SafeString`, the relation-label decode for `[id, label]` or `false`,
  and `DecodeEach`, which maps a row decoder over an array and stops at the
  first row that throws.
- `rpc.dfy` (`Rpc`): the two endpoints and the requests sent to them. It
  holds the unwrap of `CallOdooAsync` (HTTP status, then parse, then the
  `error` member, then `result`) and the unwrap of `AuthenticateOdooAsync`,
  which also reads `result.uid` and needs a `session_id` cookie. The network
  is an oracle `Remote` that maps each request to its response.
- `products.dfy` (`Products`): `GetProductsAsync`. The `foreach` is a method
  with a loop, and each row is filled field by field. Both are proved equal
  to the declarative `ProductOf` / `ProductsOf`.
- `orders.dfy` (`Orders`): `GetOrderAsync`. It covers the not-found check,
  the header copy and the lines loop, each as a method proved against
  `HeaderOf` / `LineOf` / `LinesOf`. The two round trips are the function
  `GetOrder`.
- `writers.dfy` (`Writers`): the partner lookup and the two `create` calls,
  with their checks on the shape of the result.
- `controller.dfy` (`Controller`): the `Connect` input validation and the
  sequence of remote calls that the `Connect`, `CreateOrder` and `Order`
  actions make. Each flow returns its outcome together with the requests it
  sent.
- `wrappers.dfy`, `errors.dfy`: `Option`/`Result`, and one error constructor
  per exception the core throws.

Behaviours of the code that the model keeps, and that a reader might not
expect:
- A relation decodes to its label only, and its id is never read.
- `amount_total`, `product_uom_qty`, `price_unit` and `price_subtotal` are
  read with `TryGetDecimal` and no `Number` check. A `false` or `null` there
  throws instead of leaving 0.
- `GetInt32` throws on a Number that is fractional or outside 32 bits.
- A JSON-RPC `error` whose `data` or `message` is missing throws an accessor
  exception. This is not a generic message.
- The product field list does not request the rental fields, but they are
  decoded when present.
- The `CreateOrder` and `Order` actions do not validate their inputs.
- A `session_id` cookie with an empty value is accepted as the session token.

## Model

| member | source | states |
|---|---|---|
| `Json.LookupLast` | WebApp/Controllers/HomeController.cs:84-86 | a property lookup finds a member exactly when one of that name exists, and then it returns the last such member |
| `Json.Text` | WebApp/Controllers/HomeController.cs:153 | the raw text of a value is never empty |
| `Coercion.TryGetProperty` | WebApp/Controllers/HomeController.cs:499 | a property probe succeeds exactly on objects, and then reports the member's value (the last one with that name) or its absence; it throws `WrongKind` on anything else |
| `Coercion.GetProperty` | WebApp/Controllers/HomeController.cs:359 | succeeds exactly when the value is an object holding the key, and returns that member; a missing key on an object is `MissingProperty(key)`; a non-object is `WrongKind` |
| `Coercion.GetInt32` | WebApp/Controllers/HomeController.cs:501 | succeeds exactly on an integer literal within 32 bits, and the integer equals the literal's value; any other Number is `NotInt32` and a non-Number is `WrongKind` |
| `Coercion.TryGetDecimal` | WebApp/Controllers/HomeController.cs:89 | throws exactly on non-Numbers; a Number is reported exactly when it fits a decimal, and the reported value equals the literal's value |
| `Coercion.GetString` | WebApp/Controllers/HomeController.cs:359 | a String gives its contents, a Null gives null, and anything else throws |
| `Coercion.SafeString` | WebApp/Controllers/HomeController.cs:146-155 | total; a String passes through; the result is "" exactly for `false`, `null` and the empty string; a number, array or object gives its raw text |
| `Coercion.SafeStringOfNumbers` | WebApp/Controllers/HomeController.cs:153 | a number's fallback text is its literal (`12.50`, `-0.05`) |
| `Coercion.SafeStringOfOthers` | WebApp/Controllers/HomeController.cs:153 | `true` gives "True" and an array gives its text `[3,"V"]` |
| `Coercion.PairText` | WebApp/Controllers/HomeController.cs:153 | the raw text of a two-element array is the two texts, comma-separated and bracketed |
| `Coercion.RelationLabel` | WebApp/Controllers/HomeController.cs:533-544 | a label is taken only from an array of length at least 2, and it is the SafeString of element 1; every other shape, absent included, gives "" |
| `Coercion.RelationShapes` | WebApp/Controllers/HomeController.cs:92-98 | `[5, "Alice"]` gives "Alice"; `false`, absent, `[5]` and `[5, false]` give "" |
| `Coercion.DecodeEach` | WebApp/Controllers/HomeController.cs:495-584 | succeeds exactly when every row decodes, with one value per row in order; on failure the error is that of the first failing row |
| `Coercion.DecodeEachStopsAt` | WebApp/Controllers/HomeController.cs:495-584 | when all earlier rows decode, the first row that throws decides the outcome |
| `Coercion.DecodeEachAll` | WebApp/Controllers/HomeController.cs:583 | when every row decodes, the result is exactly those values in order |
| `Rpc.TrimEnd` | WebApp/Controllers/HomeController.cs:344 | the result is a prefix of the input, does not end with the character, and only that character was removed |
| `Rpc.EndpointIgnoresTrailingSlash` | WebApp/Controllers/HomeController.cs:413 | a trailing `/` on the base URL does not change the endpoint |
| `Rpc.RemoteFailure` | WebApp/Controllers/HomeController.cs:438-442 | an `error` member is always an error: `Remote` with a string `error.data.message` ("" for null); a non-object error or `data`, or a `message` of another kind, is `WrongKind`; a missing `data` or `message` is `MissingProperty`; there is no generic fallback |
| `Rpc.Unwrap` | WebApp/Controllers/HomeController.cs:438-444 | succeeds exactly when the root is an object with no `error` and with a `result`, and returns that `result`; an `error` member decides the outcome; a non-object root is `WrongKind` and a missing `result` is `MissingProperty("result")` |
| `Rpc.ClassifyCall` | WebApp/Controllers/HomeController.cs:430-444 | a non-2xx status is a `Transport` error carrying status, reason and body; otherwise a body that is not JSON is `NotJson`, an `error` member gives its RemoteFailure, and the call succeeds exactly when the body parses and unwraps, yielding the `result` member; after a 2xx status with a parsed body the outcome is exactly Unwrap's |
| `Rpc.ClassifyAuth` | WebApp/Controllers/HomeController.cs:346-371 | a non-2xx status is a `Transport` error without a body; a body that is not JSON is `NotJson` and an `error` member gives its RemoteFailure; any other failing unwrap, or a failing `uid` read, is that step's own error; success happens exactly when the body unwraps, `result.uid` passes GetInt32 and a `session_id` cookie exists, and then the session is (uid, cookie value); `NoSessionCookie` is reported only when the cookie is missing |
| `Rpc.SearchKwargs` | WebApp/Controllers/HomeController.cs:474-478 | the search_read keyword arguments hold exactly `fields` and `limit` |
| `Rpc.CallOdoo` | WebApp/Controllers/HomeController.cs:391-428 | one request to `/web/dataset/call_kw` carrying the session, model, method and arguments, classified by `ClassifyCall` |
| `Rpc.AuthenticateOdoo` | WebApp/Controllers/HomeController.cs:323-344 | one request to `/web/session/authenticate` with db, login and password, classified by `ClassifyAuth` |
| `Rpc.StatusCheckedBeforeBody` | WebApp/Controllers/HomeController.cs:346-353 | with a failing status, the parsed body (or a parse failure) cannot change the outcome, which is a `Transport` error |
| `Rpc.ErrorMemberWins` | WebApp/Controllers/HomeController.cs:357-361 | for any reply whose `error.data.message` is a string, both endpoints give a `Remote` error with that message, whatever else the reply holds (a `result` included) |
| `Rpc.ResultReturned` | WebApp/Controllers/HomeController.cs:444 | for the reply `{"jsonrpc":"2.0","result":v}` with a 2xx status, `v` is returned unchanged |
| `Rpc.NoTokenWithoutCookie` | WebApp/Controllers/HomeController.cs:365-369 | for the reply `{"result":{"uid":N}}` with a 2xx status, a missing `session_id` cookie gives `NoSessionCookie`; with the cookie, the session is (N, the cookie's value), an empty value included |
| `Products.ReadInt32` | WebApp/Controllers/HomeController.cs:547-551 | a Number-guarded GetInt32 read fails exactly on a rejected Number and otherwise yields the value or keeps the current one |
| `Products.ReadGuardedDecimal` | WebApp/Controllers/HomeController.cs:517-522 | a Number-guarded TryGetDecimal read never throws and yields the representable value or 0 |
| `Products.MapProduct` | WebApp/Controllers/HomeController.cs:497-581 | the field-by-field fill of one view model equals the declarative `ProductOf` |
| `Products.MapProducts` | WebApp/Controllers/HomeController.cs:488-586 | a non-array result gives the empty list; otherwise one product per element, in response order, or the first row's error; equal to `ProductsOf` |
| `Products.GetProducts` | WebApp/Controllers/HomeController.cs:454-486 | sends one product.template search_read with an empty domain, the seven listed fields and limit 50; the result is the call's error or ProductsOf of its result, which MapProducts computes |
| `Products.ProductFieldsDecoded` | WebApp/Controllers/HomeController.cs:499-581 | numeric fields hold the Number's value and stay 0 otherwise; the pool and air-conditioning flags are true only for a literal `true`; `name`, `type` and `default_code` are the SafeString of the property, or "" when it is absent; the category is the relation label |
| `Products.ProductFailures` | WebApp/Controllers/HomeController.cs:499-502 | a row fails exactly when it is not an object (`WrongKind`) or when an integer field holds a Number that GetInt32 rejects (`NotInt32`, e.g. `1.5` for `id`) |
| `Products.RentalFieldsDecodedUnrequested` | WebApp/Controllers/HomeController.cs:547-581 | rental fields are not in the requested field list, yet a row carrying them is decoded with them |
| `Products.CategoryLabels` | WebApp/Controllers/HomeController.cs:532-544 | `categ_id: false` gives "" and `[3, "Villas"]` gives "Villas"; rows keep their order |
| `Orders.ReadDecimal` | WebApp/Controllers/HomeController.cs:130-131 | an unguarded TryGetDecimal read throws exactly when the property is present and not a Number |
| `Orders.MapOrderHeader` | WebApp/Controllers/HomeController.cs:76-98 | a result that is not an array, or is empty, is `OrderNotFound(orderId)`, never a zeroed order; a success carries the requested id and no lines; equal to `HeaderOf` |
| `Orders.MapLine` | WebApp/Controllers/HomeController.cs:120-137 | the field-by-field fill of one line equals the declarative `LineOf` |
| `Orders.AppendLines` | WebApp/Controllers/HomeController.cs:116-141 | the lines loop appends exactly the decoded rows in order, adds nothing for a non-array result, and stops at the first failing row |
| `Orders.GetOrder` | WebApp/Controllers/HomeController.cs:61-141 | sends the sale.order search (`id = orderId`, limit 1); the sale.order.line search (`order_id = orderId`, limit 200) is sent exactly when that call succeeds and the header decodes; a failure of either call or decode is the result, and otherwise the result is the header with the decoded lines |
| `Orders.HeaderUsesRequestedId` | WebApp/Controllers/HomeController.cs:79-83 | the header reports the requested id whatever id the row carries, and its customer is the `partner_id` label |
| `Orders.AmountsAreUnguarded` | WebApp/Controllers/HomeController.cs:89-90 | `amount_total: false` and `price_unit: null` throw instead of leaving 0, while a numeric amount is copied |
| `Orders.OrderLinesInResponseOrder` | WebApp/Controllers/HomeController.cs:114-141 | a read order carries the requested id and one line per row of the lines result, in order, or no line when the result is not an array |
| `Writers.PartnerIdOf` | WebApp/Controllers/HomeController.cs:606-613 | when the first row is an object with a Number `id`, the result is GetInt32 of that id; success happens only then; no row, or no Number `id`, is `PartnerNotFound`; a first row that is not an object is `WrongKind` |
| `Writers.CreatedIdOf` | WebApp/Controllers/HomeController.cs:629-632 | a `create` result yields an id exactly when it is an integer literal within 32 bits, and it equals the number; a Number GetInt32 rejects is `NotInt32`; a non-Number is `UnexpectedCreate(model)` |
| `Writers.GetPartnerId` | WebApp/Controllers/HomeController.cs:591-604 | sends one res.partner search for name = "Administrator", with fields id and name and limit 1; the result is the call's error or PartnerIdOf of its result |
| `Writers.CreateSaleOrder` | WebApp/Controllers/HomeController.cs:618-626 | sends one sale.order `create` with `{partner_id}`; the result is the call's error or CreatedIdOf("sale.order") of its result |
| `Writers.CreateSaleOrderLine` | WebApp/Controllers/HomeController.cs:637-651 | sends one sale.order.line `create` with `{order_id, product_id, product_uom_qty}`; the result is the call's error or CreatedIdOf("sale.order.line") of its result |
| `Controller.ValidateConfig` | WebApp/Controllers/HomeController.cs:239-245 | accepts exactly when none of the four inputs is null or whitespace-only (char.IsWhiteSpace), and then passes them through; otherwise it is `Validation` |
| `Controller.BlankInputs` | WebApp/Controllers/HomeController.cs:239-242 | null, "" and Unicode blanks are rejected; " admin " is accepted |
| `Controller.Connect` | WebApp/Controllers/HomeController.cs:237-251 | rejected input is a `Validation` error with no request sent, whatever the server would answer |
| `Controller.ConnectUsesIssuedSession` | WebApp/Controllers/HomeController.cs:248-251 | Connect authenticates first; the product search is sent only after authentication succeeds, and it carries the `session_id` cookie's token |
| `Controller.CreateOrder` | WebApp/Controllers/HomeController.cs:187-210 | authenticates first; a failed authentication is the outcome with nothing else sent; at most five requests, and a success sent all five |
| `Controller.NoOrderWithoutPartner` | WebApp/Controllers/HomeController.cs:191-197 | when the partner search finds no row, the outcome is `PartnerNotFound` and only the authentication and the partner search were sent |
| `Controller.CreateOrderChainsIds` | WebApp/Controllers/HomeController.cs:191-203 | a successful CreateOrder sent exactly five requests with the issued token: the order is created for the partner found, the line for the id that creation returned, and that id is reported |
| `Controller.ViewOrder` | WebApp/Controllers/HomeController.cs:282-288 | authenticates first; a failed authentication is the outcome with nothing else sent; otherwise the outcome and the further requests are those of GetOrder with the issued token |
| `Controller.MissingOrderIsNotFound` | WebApp/Controllers/HomeController.cs:285-287 | an order the search does not return is `OrderNotFound(orderId)` and its lines are never requested |

## Left out

- HTTP, `HttpClient`, `HttpClientHandler`, `CookieContainer` and async/await are network I/O. The exchange is the oracle `Remote`. A response gives the status, reason phrase, body text, parsed body and the cookies the jar holds for the base URL.
- `JsonDocument.Parse` and `JsonSerializer.Serialize` are library code. A response holds its parsed root, or `None` when the body is not JSON (`NotJson`). A request records its fields, not its serialized envelope. Nothing states that the body text and the parsed root agree.
- The JSON-RPC request `id` comes from the clock, so it is not part of a request.
- `Uri` construction and `TrimEnd` on a null URL, and null `db`/`login`/`password` in `CreateOrder` and `Order`, are not modelled. Those actions take plain strings. Binding form values to `int` is not modelled.
- C# `decimal` is an exact real. A value counts as representable when its magnitude is at most 2^96 - 1. Rounding of excess digits is not modelled.
- Number literals with an exponent, and the sign of `-0`, are not modelled. A literal is digits with an optional fraction.
- For numbers, arrays and objects, `JsonElement.ToString` returns the document's own text. The model uses a compact rendering (`Text`) that escapes only `"` and `\`, so whitespace and other escapes in the original document are not reproduced.
- View models are values updated by record update, not objects. Each one is created fresh per row and never shared, so object identity plays no part.
- The French exception messages, `ILogger`, `ViewBag`, the views and the `Index` action are presentation. An error keeps its kind and the data its message is built from, and the message text itself is left out.
- `CookieCollection["session_id"]` matches cookie names ignoring case. The model's cookie map looks the name up exactly.
- A send that throws (no response, a time-out, a refused connection) cannot be expressed through `Remote`, which always answers with a response.
- Invariant culture and ordinal comparison are assumed for property names, as `System.Text.Json` uses them.
