# kickoff-ecommerce: catalog and checkout logic in Dafny

A model of the sequential logic in `app.js` of the kickoff-ecommerce Express backend:

- the in-memory product catalog and its list, create, update and delete routes, including how the
  `:id` path parameter is read by JavaScript's `parseInt` and compared with `===`;
- `authMiddleware`, the 401 gate;
- the checkout route `POST /orders/:id/pay`: the order of its outcomes (404, 400, 500, 200), the one
  state change it makes, and the shape of the PhonePe request it signs and sends;
- the read-only route `GET /orders/status/:transactionId`.

Two definitions decide every catalog route. `JsParseInt.ParseInt` is how the `:id` path parameter
becomes a number or NaN. `Catalog.Matches` is the `product.id === key` test: it holds only when the
stored id is a number equal to the parsed integer.

Every handler is a pure function. The catalog is a `seq<Product>`. The order collection is a
`map<string, Order>` keyed by document id. Whatever decides a request from outside the handler is a
parameter of the function:

- whether the database query rejects;
- the two random transaction numbers;
- the gateway's answer;
- whether `order.save()` rejects;
- JSON serialisation, base64 and SHA-256, passed in as uninterpreted functions.

Modules, one file each:

| file | module | content |
|---|---|---|
| wrappers.dfy | Options | `Option` |
| http.dfy | Http | `Response<B>` and the status codes used |
| js_parse_int.dfy | JsParseInt | ECMAScript `parseInt` with no radix (section 19.2.5 of ECMA-262) and decimal rendering |
| catalog.dfy | Catalog | the products array and its four routes |
| payment_gateway.dfy | PaymentGateway | payment data, the X-VERIFY checksum, the outbound request |
| checkout.dfy | Checkout | orders, `AuthGate`, `Pay`, `StatusLookup` |

Behaviour of the code worth knowing:

- On a successful payment the code sets only `status` to `"paid"`. It never records a transaction id
  on the order. So the status route cannot find an order by the id the gateway returned
  (`Checkout.StatusLookupUnaffectedByPay`).
- A rejected `order.save()` inside the gateway's `.then` is caught by the same `.catch` as a gateway
  failure. The reply is then 500 "Payment Failed" with the save error's message, and nothing is
  stored.
- `findById` is awaited inside the `try`. A rejected lookup therefore gives 400 "Error processing
  payment", not 404.
- Nothing in the product routes keeps ids unique (`Catalog.CreateAllowsDuplicateIds`).
- The redirect URL carries a second random number, drawn separately from `merchantTransactionId`. It
  also points at `http://localhost:3001/api/v1/orders/status/`, which is not where this server
  mounts its status route.

## Model

| member | source | states |
|---|---|---|
| Catalog.FindIndex | app.js:48 | `findIndex` returns -1 exactly when no product's id strictly equals the key, otherwise the first index that does |
| Catalog.List | app.js:33-35 | `GET /products` replies 200 with every product, in order |
| Catalog.Create | app.js:38-42 | the body becomes the new last element; earlier elements are unchanged; length grows by one; the reply echoes the body |
| Catalog.Update | app.js:45-55 | only the first product matching `parseInt(id)` is replaced, by the whole body; all other entries and the length are unchanged; with no match (NaN, string ids, absent ids) the catalog is unchanged and the reply is 404 "Product not found" |
| Catalog.Delete | app.js:57-67 | the first matching product is removed; products before it keep their positions and those after it shift down by one; length drops by one; with no match the catalog is unchanged and the reply is 404 |
| Catalog.DeleteRemovesOneMatch | app.js:60-62 | a successful delete removes exactly one product with the matching id, so later duplicates survive |
| Catalog.DeleteUndoesCreate | app.js:38-67 | creating a product under an id no product has, then deleting by that id, restores the catalog |
| Catalog.UpdateIdempotent | app.js:45-55 | repeating an update whose body keeps the matched id gives the same catalog and reply as doing it once |
| Catalog.UpdateCountsMatches | app.js:48-50 | a successful update lowers the number of products matching the key by one, and raises it back by one only if the body has the same id |
| Catalog.RenumberingUpdateIsNotRepeatable | app.js:47-50 | when the key matched a single product and the body carries another id, sending the same update again gives 404 |
| Catalog.IdParamSuffixIgnored | app.js:46-60 | a path parameter that is a numeral followed by text that does not continue it (`2abc`) updates and deletes the same product as the bare numeral |
| Catalog.CreateAllowsDuplicateIds | app.js:22-42 | the initial catalog has unique ids; create accepts a second product with id 1, after which two products match key 1 |
| JsParseInt.ShowNat | app.js:171 | the decimal rendering of a number is a non-empty string of digits, with a leading zero only for 0 |
| JsParseInt.ParseIntOfShowInt | app.js:48 | `parseInt` reads the decimal rendering of every integer back as that integer |
| JsParseInt.ParseIntOfNumeralPrefix | app.js:48 | `parseInt` of a numeral followed by text that neither continues the digits nor makes a `0x` prefix is the numeral's value |
| JsParseInt.ParseIntSkipsLeadingWhiteSpace | app.js:48 | leading white space never changes what `parseInt` returns |
| JsParseInt.TrimStartDropsOnlyWhiteSpace | app.js:48 | the prefix `parseInt` skips consists of white space only, and what remains does not start with white space |
| JsParseInt.ParseIntOfHexNumeral | app.js:48 | after `0x` or `0X`, `parseInt` reads the longest run of hexadecimal digits in radix 16, whatever follows them |
| JsParseInt.ParseIntNaNWithoutLeadingDigit | app.js:48 | when, after white space and one optional sign, the next character is not a decimal digit (or there is none), `parseInt` gives NaN, so no product matches |
| JsParseInt.ParseIntOfHex | app.js:60 | `0x10` is read in hexadecimal as 16, and `0x` with no digits after it is NaN |
| JsParseInt.ParseIntOfTrailingText | app.js:48 | `parseInt("2abc")` is 2 |
| JsParseInt.ParseIntOfSpacedNegative | app.js:48 | `parseInt(" -7")` is -7 |
| JsParseInt.ParseIntOfLetters | app.js:48 | `parseInt("abc")` is NaN |
| JsParseInt.ParseIntOfEmpty | app.js:48 | `parseInt("")` is NaN |
| PaymentGateway.Checksum | app.js:167-171 | the checksum is the digest of payload + path + key, then `###`, then the key index written in decimal |
| PaymentGateway.ChecksumReadsBackKeyIndex | app.js:170-171 | `parseInt` reads the part of the checksum after `###` back as the key index |
| PaymentGateway.PaymentData | app.js:148-163 | the payment data carries the fixed merchant id, the first random number, `MUID` + user id, the user's name and phone, total × 100, and a redirect URL on the status path ending in the second random number |
| PaymentGateway.Outbound | app.js:165-185 | the `request` field is the base64 of the serialised data; X-VERIFY is SHA-256 of that same string + `/pg/v1/pay` + salt key, then `###1`; POST to the sandbox URL with JSON headers |
| PaymentGateway.ChecksumEndsWithSaltIndex | app.js:168-171 | every X-VERIFY value ends in `###1` |
| Checkout.AuthGate | app.js:69-74 | without authentication the reply is 401 "Unauthorized" and the state is untouched; with it, the result is exactly the handler's |
| Checkout.Pay | app.js:139-201 | a failed lookup gives 400, an unknown order 404, and a missing `req.user` 400, and none of them sends anything; otherwise the signed request is sent; rejection or a failed save gives 500 "Payment Failed" with the error and no change; success gives 200 with the gateway's id, and only the order's status becomes "paid" |
| Checkout.StatusLookup | app.js:203-214 | 200 "Order status updated successfully" when some order carries the transaction id; 404 when none does; 400 when the query fails |
| Checkout.PayKeepsTransactionIds | app.js:187-192 | pay keeps the set of order ids and every order's transaction id, including on success |
| Checkout.StatusLookupUnaffectedByPay | app.js:187-214 | no pay request, successful or not, changes what the status route answers for any transaction id |
| Checkout.PayIgnoresOrderStatus | app.js:141-190 | pay sends the same request and gives the same reply whatever the order's current status, so it has no at-most-once guard |
| Checkout.PaidOrderIsChargedAgain | app.js:139-192 | an order already "paid" is signed and sent to the gateway again, and a second success leaves the collection unchanged |
| Checkout.PayRouteIsNotGated | app.js:139-154 | the pay route has no `authMiddleware`: without a user it replies 404 or 400, never 401, where the gate would reply 401 |

## Left out

- Express, body-parser, cors, helmet, `mongoose.connect` and `app.listen` are wiring and I/O. The route `GET /` only returns a fixed string.
- Passport login and sessions (`/login`) and `/register` are thin wrappers over the auth library and `User.save`. Authentication appears only as the gate's boolean, which is true exactly when a user is attached to the request.
- Order creation and listing (`POST /orders`, `GET /orders`, `GET /orders/:id`) are left out. Their field defaults live in `models/Order`, which is not part of this model. Order status is therefore kept as a plain string.
- SHA-256, base64, `JSON.stringify` and the axios call are uninterpreted function parameters. The hex digest's length and alphabet are not assumed.
- `generatedTranscId` uses `Math.random`. Its two results are independent parameters, limited to the nine-digit range the formula gives.
- Concurrent pay requests and the unsynchronised products array are not modelled. Each request is a single step, and the code has no locking or conditional write to model.
- The product body's fields other than `id` are an uninterpreted map. Objects and arrays as ids are not broken down, since they never strictly equal a number.
- Replies are modelled as status plus JSON body. Headers, `console.error` logging and the synchronous throw of `res.json` are left out.
- PaymentGateway.PaymentData: the amount is `total * 100` in exact real arithmetic. IEEE-754 multiplication in the source can give a non-integral amount (`0.29 * 100` is `28.999999999999996`).
- JsParseInt.ParseIntOfShowInt: values are unbounded integers. `parseInt` returns a double, so numerals beyond 2^53 lose precision in the source but not in the model.
- Catalog.Update: product ids are exact real numbers in the model. `JSON.parse` rounds a body id to the nearest double, so `1.0000000000000001` is stored as `1` and matches key 1 in the source but not in the model. The same holds for Catalog.Delete.
- Checkout.Pay: `findById` is modelled as an exact key lookup with a separate failure flag. Mongoose's casting of the id string to an ObjectId is not modelled.
