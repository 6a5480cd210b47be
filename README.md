# Event-registration backend: authentication, route chains and payment-proof naming

This project is a verified Dafny model of three small parts of an Express
backend for event registration and payment tracking:

- **`requireAuth`** (`middleware/auth.js`). It reads the session token from the
  `Authentication` cookie and passes the token to the verifier. If the verifier
  returns claims, it attaches them as `req.user` and calls `next`. Otherwise it
  answers with a `{status, message}` body: 401 when there is no token, 403 when
  the verifier returns a falsy value, and 401 when anything in the `try` block
  throws. The status codes are those of sections 15.5.2 and 15.5.4 of RFC 9110.
- **The route table** (`routes/routes.js`). There are 21 registrations, each a
  (method, path) pair with a chain of handlers. Express runs a chain in order
  and stops at the first handler that answers without calling `next`. The two
  payment-admin routes hold an inline gate that demands the role `PaymentAdmin`
  exactly.
- **`uploadToAzure`** (`helper/azureBlob.js`). It takes the extension from the
  MIME type (`mimeType.split("/")[1]`) and builds the name
  `payment_<ms>_<uuid>.<ext>`. It writes the buffer and its content type into
  the storage container under that name and returns the blob's URL.

Modules:

- `Wrappers`: `Option` and `Result`.
- `Text`: JavaScript's `split` for a one-character separator and its partner
  `join`, the decimal rendering of a timestamp, and two scanners.
- `Http`: the status codes, the claims, the response body, and the class
  `Exchange`. An `Exchange` is the request/response pair the handlers mutate:
  `req.user`, the response written, and the count of `next` calls.
- `Auth`: the pure decision `Authenticate` and the method `RequireAuth` that
  carries that decision out on an `Exchange`.
- `Routes`: the table as data, the `Router` that is built by successive
  registrations, the role gate, the chain semantics `Run`, and the loop
  `Execute` that drives the handlers over an `Exchange`.
- `RouteTable`: facts about the registered table.
- `AzureBlob`: the extension and the name, an inverse parser for the name, the
  container, and the upload method.

Calls into code outside the model become parameters:

- The token verifier is a function `(token, secret) -> Decoded(claims) | Falsy | Threw`.
- `Date.now()` is `now: nat` and `crypto.randomUUID()` is `uuid`.
- The outcome of the network write is the flag `uploadFails`.
- Whether multer accepts the multipart body is `Env.uploadAccepts`.

The `try` block of `requireAuth` also encloses the call to `next()`. If `next`
threw synchronously, the `catch` would write a 401 after `next` had already
been called. `Auth.RequireAuth` exposes this through its parameter `nextThrows`.
Inside a route chain Express's own layer catches handler errors, so
`Routes.Dispatch` passes `false`.

## Model

| member | source | states |
|---|---|---|
| `Auth.Authenticate` | middleware/auth.js:3-29 | A rejection is always 401 or 403. Claims are attached only when the cookie holds a non-empty token and the verifier decoded exactly those claims from that token and the secret. |
| `Auth.Truthy` | middleware/auth.js:7 | A token counts as present exactly when the cookie exists and is non-empty, which is JavaScript's `!token` test negated. |
| `Auth.MissingTokenRejected` | middleware/auth.js:5-11 | An absent or empty cookie gives 401 "Authentication required", whatever the verifier is. |
| `Auth.VerifierSeesTokenAndSecret` | middleware/auth.js:7-13 | With a token present, the decision depends on the verifier only through its answer for (cookie token, configured secret). |
| `Auth.TokenOutcomes` | middleware/auth.js:13-28 | A falsy verdict gives 403 "Invalid or expired token". A throw gives 401 "Unauthorized". Decoded claims are attached unchanged. |
| `Auth.RequireAuth` | middleware/auth.js:3-29 | On rejection it writes the `standardResponse` body with the matching status, leaves `req.user` alone and does not call `next`. On success it sets `req.user` to the claims, calls `next` once and writes nothing. A throwing `next` is followed by a 401. When `next` returns normally, exactly one of "respond" and "call next" happens. |
| `Http.Respond` | middleware/auth.js:8-10 | `res.status(c).json(standardResponse(c, m))`: the body carries the same code as the status and the given message. It is a rejection exactly when the code is 401 or 403. |
| `Routes.UserRoutes` | routes/routes.js:45-60 | The eight user, verification and password registrations as data, in source order. |
| `Routes.CollegeRoutes` | routes/routes.js:62-68 | The four college registrations as data, in source order. Their lack of middleware is stated by `RouteTable.TableMatches`. |
| `Routes.EventRoutes` | routes/routes.js:70-79 | The six event registrations as data, in source order. Which of them need `requireAuth` is stated by `RouteTable.TableMatches`. |
| `Routes.PaymentRoutes` | routes/routes.js:81-110 | The three payment registrations with their middleware chains. |
| `Routes.Table` | routes/routes.js:45-110 | The 21 registrations, in order. Their chain shapes, protection and uniqueness are stated by the `RouteTable` lemmas. |
| `Routes.Router.constructor` | routes/routes.js:43 | A new router has no routes. |
| `Routes.Router.Register` | routes/routes.js:45 | Each `router.get/post/put/delete` appends one (method, path, chain) entry. |
| `Routes.RegisterUserRoutes` | routes/routes.js:45-60 | Registers the user, verification and password routes in source order. |
| `Routes.RegisterCollegeRoutes` | routes/routes.js:62-68 | Registers the four college routes in source order. |
| `Routes.RegisterEventRoutes` | routes/routes.js:70-79 | Registers the six event routes in source order. |
| `Routes.RegisterPaymentRoutes` | routes/routes.js:81-110 | Registers the three payment routes with their middleware chains. |
| `Routes.BuildRouter` | routes/routes.js:43-110 | The router built by the module body holds exactly the table, in order. |
| `Routes.Gate` | routes/routes.js:91-96 | The gate throws exactly when `req.user` is undefined. |
| `Routes.GateIsExactMatch` | routes/routes.js:92 | The gate passes only for the exact, case-sensitive role. "paymentadmin", "Admin" and a missing role are all denied. There is no hierarchy. |
| `Routes.RoleGateHandler` | routes/routes.js:103-108 | On a mismatch it writes 403 "Access denied" without calling `next`. On a match it calls `next` once and writes nothing. It never changes `req.user`. |
| `Routes.Step` | routes/routes.js:81-110 | One handler of a route's chain on the request state: `requireAuth` (through `Auth.Authenticate`, middleware/auth.js:3-29), multer's `upload.single("screenshot")`, the `PaymentAdmin` gate, or a controller. It never changes the cookie. A handler that does not halt writes no response, and any response it writes is a 401/403 rejection. Only `requireAuth` changes `req.user`, and it passes exactly when `Authenticate` attaches claims. A controller halts and changes nothing in the model. |
| `Routes.Run` | routes/routes.js:81-110 | The count of handlers started is at most the chain length and at least one for a non-empty chain. A chain that passes has started every handler. |
| `Routes.RunAppend` | routes/routes.js:81-110 | Running `a + b` runs `a`, and runs `b` only if every handler of `a` called `next`. |
| `Routes.HandlerRunsIffPrefixPassed` | routes/routes.js:81-110 | Handler `k` starts if and only if every earlier handler called `next`. |
| `Routes.ChainWritesOnlyRejections` | routes/routes.js:88-110 | Any response the middleware of a chain writes is a 401 or 403 whose body carries the same code. |
| `Routes.Dispatch` | routes/routes.js:88-110 | One handler on an `Exchange` has the effect `Step` describes. It raises exactly on a faulted step. It calls `next` exactly once on a passing step and not at all otherwise. |
| `Routes.Execute` | routes/routes.js:81-110 | The loop over the handlers ends in the state, outcome and handler count that `Run` gives, and `next` was called once for every handler that passed: all of them on a pass, all but the last otherwise. |
| `RouteTable.TableWellShaped` | routes/routes.js:45-110 | Every chain is one of four shapes: controller; auth then controller; auth, upload, controller; or auth, `PaymentAdmin` gate, controller. |
| `RouteTable.TableMatches` | routes/routes.js:45-110 | On every registered route, protection and the admin gate agree with the two listed sets of (method, path) pairs. |
| `RouteTable.AuthRequiredExactly` | routes/routes.js:45-110 | A corollary of `TableMatches`: exactly the listed routes need a session: profile, logout, event create/update/my-events/register/registered-events, and the three payment routes. |
| `RouteTable.AdminRequiredExactly` | routes/routes.js:88-110 | A corollary of `TableMatches`: exactly `/View-All-Payments` and `/Update-Payment-Status/:paymentId` hold the role gate, and both also need a session. |
| `RouteTable.AuthRequiredAllRegistered` | routes/routes.js:45-110 | Every listed protected (method, path) pair is registered. |
| `RouteTable.KeysAreUnique` | routes/routes.js:45-110 | No (method, path) pair is registered twice. |
| `RouteTable.WellShapedReachedIffAdmitted` | routes/routes.js:81-110 | For each chain shape, the controller runs exactly when the request is admitted. On a protected chain that means: the token authenticates, the claims carry each gate's role, and multer accepts. |
| `RouteTable.ControllerReachedIffAdmitted` | routes/routes.js:45-110 | On every registered route, the controller runs if and only if the request is admitted. So no protected controller runs without authentication, and no admin controller runs without the exact role. |
| `RouteTable.LaterHandlersNeedAuth` | routes/routes.js:81-86 | On a chain that begins with `requireAuth`, no later handler runs unless the token authenticates. This includes multer's `screenshot` upload. |
| `RouteTable.UserSetBeforeLaterHandlers` | routes/routes.js:88-110 | The handlers after `requireAuth`, the role gate included, see `req.user` set to the verified claims. |
| `RouteTable.PublicAndPrivateEvents` | routes/routes.js:72-75 | Without a cookie, `GET /event/all` reaches its controller and `GET /event/my-events` stops at once with 401 "Authentication required". |
| `Text.Split` | helper/azureBlob.js:13 | `split("/")` yields at least one piece. No piece holds the separator. There is a single piece exactly when the string has no separator. |
| `Text.JoinSplit` | helper/azureBlob.js:13 | Joining the pieces of a split gives back the string. |
| `Text.SplitJoin` | helper/azureBlob.js:13 | Splitting a join of separator-free pieces gives back the pieces. |
| `Text.Decimal` | helper/azureBlob.js:14 | The timestamp prints as at least one decimal digit, without a leading zero. |
| `Text.ParseDecimalOfDecimal` | helper/azureBlob.js:14 | Reading the printed timestamp back gives the timestamp. |
| `AzureBlob.Extension` | helper/azureBlob.js:13 | The extension never contains `/`. A MIME type without `/` gives "undefined". |
| `AzureBlob.ExtensionIsSecondSegment` | helper/azureBlob.js:13 | The extension is exactly the text between the first and the second `/`. |
| `AzureBlob.ExtensionExamples` | helper/azureBlob.js:13 | "image/png" gives "png", "application/pdf" gives "pdf", "a/b/c" gives "b", "image/" gives "" and "png" gives "undefined". |
| `AzureBlob.BlobName` | helper/azureBlob.js:14 | The name contains no `/` when the UUID has none, so the layout is flat. |
| `AzureBlob.BlobNameSuffix` | helper/azureBlob.js:13-14 | The name ends with "." followed by the extension. |
| `AzureBlob.ParseBlobNameInverts` | helper/azureBlob.js:14 | The name reads back as (timestamp, UUID, extension) when the UUID has no `.`. |
| `AzureBlob.BlobNameInjective` | helper/azureBlob.js:14 | Equal names come from equal timestamps, UUIDs and extensions. |
| `AzureBlob.BlobUrl` | helper/azureBlob.js:16-24 | `blockBlobClient.url` is the container URL, then `/`, then the blob name. |
| `AzureBlob.UrlNamesBlob` | helper/azureBlob.js:16-24 | For a container URL without a query string, the last path segment of the blob's URL is the whole blob name. |
| `AzureBlob.Container.constructor` | helper/azureBlob.js:9-11 | A client for the shared container sees exactly the blobs already stored there. |
| `AzureBlob.Container.UploadData` | helper/azureBlob.js:18-22 | A successful write maps the name to (buffer, content type). A failed write leaves the container unchanged and reports the error. |
| `AzureBlob.UploadToAzure` | helper/azureBlob.js:8-24 | After an upload the container maps the generated name to (buffer, `mimeType`), and the result is that name's URL. For a container URL without a query string, the URL's last segment keys the stored blob. A storage failure propagates and writes nothing. |

## Left out

- `VerifyAuthToken` and `standardResponse` live in helper/helper.js, which is not part of this model. The verifier is an opaque function parameter. `standardResponse(code, message)` is the constructor `StandardBody(code, message)`.
- `console.log` in the `catch` block is a logging side effect and is not modelled.
- Express internals are not modelled: cookie parsing, path matching and parameters, fall-through to a 404, and the error handler. A handler that throws or passes an error to `next` ends the chain as `Faulted`.
- Multer's `upload.single("screenshot")` is not modelled beyond accepting (calls `next`) or failing (`Faulted`). Setting `req.file` is not modelled.
- Controllers are opaque. They answer without calling `next`, and their effects on the response and the database are not modelled.
- A second write to an already-sent response ("headers already sent") is not modelled. A later write simply replaces the recorded response.
- Async suspension is not modelled. It has no effect on these sequential decisions.
- The cookie is modelled as an optional string. JSON-valued cookies are not modelled. A claims `role` that is not a string is modelled as a missing role, and the gate treats both the same way.
- Azure client construction, the connection string and the container name from the environment are not modelled. Nor is the network call itself: `uploadData` is one map write, or a failure that leaves the map unchanged. Partial writes are not modelled.
- The SDK's percent-encoding of the blob name in the URL is not modelled. The URL is the container URL, `/`, and the name.
- AzureBlob.UrlNamesBlob: assumes the container URL has no query string. With a SAS connection string the SDK puts the name before the `?sv=…` query, and that case is not modelled; `UploadToAzure` makes the same assumption in its last ensures.
- The timestamp is a `nat`. Negative clock readings, and values of 10^21 and above (which JavaScript prints in exponent form), are not modelled.
- The randomness and uniqueness of `crypto.randomUUID()` are not modelled. The UUID is a parameter, and the name lemmas only assume that it has no `/` or `.`.
- A missing `mimeType` (a `TypeError` on `.split`) is not modelled. The MIME type is always a string.
- helper/azureBlob.js has no folder-prefixed upload and no delete-by-URL, so only the flat `payment_…` name is modelled.
