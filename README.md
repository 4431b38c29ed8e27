# XpertAssist API gateway: connection gate, matching session and token refresh

This project models two pieces of the API gateway in Dafny and proves properties of them.

1. The real-time socket server in `src/services/socket.ts`. It has two parts:
   - The connection gate (`authenticateSocket`). It admits or rejects a connection from its access token and refresh token. It may first exchange the refresh token for a new pair and push that pair to the client as `newTokens`.
   - The matching session. A seeker's `service-request`, the experts' `expertLocation` reports and an expert's `accept-service` update two single slots, `userRequestData` and `serviceData`. All connections share these slots.
2. The HTTP refresh-token endpoint (`refreshToken` in `src/modules/auth/controller.ts`). It takes the refresh token from the cookie, then from the `Authorization` header, then from the body. It calls the identity service and answers with one of three responses.

Modules:

- `JsStrings` (`js_strings.dfy`) covers the JavaScript semantics the token handling depends on:
  - truthiness of a string that may be missing, and `||`;
  - `trim` over the ECMAScript white-space and line-terminator set;
  - `split` on a one-character separator, proved to be the inverse of `join`;
  - array indexing that yields `undefined` past the end.
- `AuthController` (`auth_controller.dfy`) covers token selection and the response mapping of `refreshToken`.
- `SocketAuth` (`socket_auth.dfy`) covers the admit/reject decision of `authenticateSocket`. The outcome of `jwt.verify` and the reply of the identity service are parameters. The result records:
  - every verify call;
  - every refresh call;
  - every `newTokens` event;
  - every call of the middleware's `next`.
- `Matching` (`matching.dfy`) covers the matching session. Each handler is split into two steps: a request step that issues the gRPC call, and a callback step that receives the call's outcome as a parameter. The module has three layers:
  - Step functions on a `Session` value. A `Session` holds the two slots, a log of broadcasts and a log of outgoing calls.
  - An event-loop model (`Step`, `Run`). `Run` plays any interleaving of socket events and reply deliveries. The module proves invariants that hold for every interleaving.
  - The class `SocketService`. It holds the slots as fields, and its methods are proved to perform the step functions.

The code keeps one global request slot and one global offer slot, so the model does too. A new request replaces the previous one, whichever seeker sent it. A new offer replaces the previous one, whichever expert it was for. No rule lets the first responder win. Two consequences are proved:
- The user-lookup callback builds the offer from the request captured before the call.
- The create callback merges the job id into whatever offer the slot holds when the reply arrives. If another expert's offer arrived meanwhile, the confirmation names that other expert, and the accepted price and PIN are lost.

The code keeps no per-seeker state. It has no "first qualifying report wins" rule, no discovery timeout, and no handlers for seeker confirmation, PIN verification, start of work, chat or call relay. The model follows the code.

## Model

| member | source | states |
|---|---|---|
| `JsStrings.Truthy` | src/modules/auth/controller.ts:13-14 | a string that may be missing is falsy exactly when it is missing (`undefined`/`null`) or empty |
| `JsStrings.Or` | src/modules/auth/controller.ts:13-14 | JavaScript's logical or of `a` and `b` is `a` when `a` is truthy and `b` as it is otherwise, so it is truthy exactly when one of the two is |
| `JsStrings.Trim` | src/modules/auth/controller.ts:13 | `trim()` returns a string no longer than its input that neither starts nor ends with ECMAScript white space |
| `JsStrings.LeadingRun` | src/modules/auth/controller.ts:13 | the leading run that `trim()` removes holds only white space and stops at the first other character, or at the end of the string |
| `JsStrings.TrailingRun` | src/modules/auth/controller.ts:13 | the trailing run that `trim()` removes holds only white space and stops after the last other character, or at the start of the string |
| `JsStrings.TrimChars` | src/modules/auth/controller.ts:13 | `trim()` is `TrimChars` over the ECMAScript white-space and line-terminator set: the result is no longer than the input and neither starts nor ends with white space |
| `JsStrings.TrimCharsInfix` | src/modules/auth/controller.ts:13 | the trimmed string is the infix of the input left after a leading and a trailing run of white space, and only white space lies outside it |
| `JsStrings.TrimCharsBetween` | src/modules/auth/controller.ts:13 | when only white space lies before the first and after the last other character, trimming keeps exactly the stretch between them |
| `JsStrings.TrimCharsUnchanged` | src/modules/auth/controller.ts:13 | a string that neither starts nor ends with white space is unchanged by trimming |
| `JsStrings.TrimStripsPadding` | src/modules/auth/controller.ts:13 | any white-space padding around a string whose two ends are not white space is exactly what `trim()` removes |
| `JsStrings.TrimIdempotent` | src/modules/auth/controller.ts:13 | trimming twice gives the same result as trimming once |
| `JsStrings.At` | src/modules/auth/controller.ts:13 | `fields[1]` is present exactly when there are at least two fields, and then it is the second field |
| `JsStrings.Split` | src/modules/auth/controller.ts:13 | `split(" ")` returns at least one field; no field contains a space; joining the fields with single spaces gives back the input, so empty fields (from double spaces) are kept |
| `JsStrings.SplitJoin` | src/modules/auth/controller.ts:13 | splitting a single-space join of space-free fields gives back exactly those fields (split is the inverse of join) |
| `AuthController.SecondField` | src/modules/auth/controller.ts:13 | `split(" ")[1]` is present exactly when the string holds a space, and then holds no space |
| `AuthController.HeaderToken` | src/modules/auth/controller.ts:13 | `authorization?.trim().split(" ")[1]` is present exactly when there is a header whose trimmed text holds a space, and then holds no space. `HeaderTokenOfFields`, `SecondFieldIsToken`, `EmptySecondField` and `SingleFieldFallsThrough` pin down its value |
| `AuthController.SelectToken` | src/modules/auth/controller.ts:13 | the cookie wins when truthy; otherwise the header's second field when truthy; otherwise `body.token` as it is. The chosen token is truthy exactly when one of the three sources is |
| `AuthController.RefreshToken` | src/modules/auth/controller.ts:12-27 | a missing token gives Unauthorized "Token is missing" with no refresh call. A found token gives exactly one `RefreshToken` call carrying it; an error then gives NotAcceptable "Invalid refresh token", and success gives Created with `success`, the message, and `token`/`refreshToken` read through `result?.accessToken`/`result?.refreshToken` (absent when missing) |
| `AuthController.HeaderTokenOfFields` | src/modules/auth/controller.ts:13 | `split(" ")[1]` of a single-space join of space-free fields is the second field, or nothing when there is only one field |
| `AuthController.SecondFieldIsToken` | src/modules/auth/controller.ts:13 | `<scheme> <token>`, with any surrounding white space, yields `<token>` |
| `AuthController.EmptySecondField` | src/modules/auth/controller.ts:13 | `<scheme>  <rest>` (two spaces) yields the empty string as its second field |
| `AuthController.DoubleSpaceFallsThrough` | src/modules/auth/controller.ts:13 | that empty second field is falsy, so without a cookie `body.token` is used |
| `AuthController.SingleFieldFallsThrough` | src/modules/auth/controller.ts:13 | a header with a single field has no second field, so without a cookie `body.token` is used |
| `AuthController.BearerEdgeCases` | src/modules/auth/controller.ts:13 | `"Bearer  x"` yields `""` and `"Bearer"` yields nothing; without a cookie, both fall through to `body.token` |
| `AuthController.MissingTokenIsUnauthorized` | src/modules/auth/controller.ts:25-26 | with no truthy source, the response is Unauthorized "Token is missing" and no refresh call is made, whatever the identity service would answer |
| `SocketAuth.Authenticate` | src/services/socket.ts:28-79 | `next` is called exactly once on every path. It admits exactly when the access token verifies, or when the access token is missing or expired and a present refresh token is exchanged. The access token is verified once when present. The refresh token is sent once exactly on the refresh path. `newTokens` carries `access_token`/`refresh_token` and is sent only when that exchange succeeds |
| `SocketAuth.NoTokensRejected` | src/services/socket.ts:30-34 | with neither token, the connection is rejected with nothing verified or refreshed |
| `SocketAuth.ValidAccessTokenAdmitted` | src/services/socket.ts:36-39 | an access token that verifies is admitted, and the refresh token is never consulted |
| `SocketAuth.InvalidAccessTokenNoRefresh` | src/services/socket.ts:40-52 | a verification failure other than `TokenExpiredError` is rejected with "Invalid access token", and a thrown non-`Error` with "Unknown error occurred"; neither makes a refresh attempt or sends `newTokens` |
| `SocketAuth.RefreshPath` | src/services/socket.ts:56-71 | an expired or missing access token plus a refresh token gives exactly one refresh call; success admits and emits the new pair, and failure rejects with "Refresh token error" |
| `SocketAuth.ExpiredWithoutRefreshRejected` | src/services/socket.ts:72-74 | an expired access token without a refresh token is rejected |
| `Matching.WithinRadiusBoundary` | src/services/socket.ts:107 | the `distance <= 5` test is inclusive (5 km is within), and a NaN distance is never within |
| `Matching.ServiceRequest` | src/services/socket.ts:84-88 | `service-request` unconditionally overwrites the single request slot with the payload and issues one `GetOnlineExperts` call for its service; the offer slot and the broadcasts are untouched |
| `Matching.OnlineExpertsReplied` | src/services/socket.ts:89-100 | the expert list is broadcast exactly when the lookup has no error and returns a non-empty list; neither slot changes |
| `Matching.ExpertLocation` | src/services/socket.ts:103-107 | with no stored request, or with a distance that is not `<= 5` (NaN included), nothing changes and no lookup is made. Otherwise one `GetUser` call goes out for the stored seeker, and the callback captures the stored location, service and notes. The request slot is never written |
| `Matching.Offer` | src/services/socket.ts:113-116 | an offer copies only name, email, mobile and image from the user record, takes location, service, notes and distance from the captured values, and carries no price, rate, PIN or job id |
| `Matching.UserLookupReplied` | src/services/socket.ts:108-122 | a returned user replaces the offer slot with the new offer and broadcasts it; an error or a missing user changes nothing |
| `Matching.AcceptService` | src/services/socket.ts:129-134 | with an empty offer slot, nothing happens. Otherwise price, rate and a fresh PIN are merged in, every other field (job id included) is kept, and exactly one `CreateService` call carries the merged record |
| `Matching.CreateServiceReplied` | src/services/socket.ts:134-150 | a truthy job id is merged into the offer slot as it is at callback time, if that slot is non-empty, and `expert-confirmation` carries that job id and the slot's expert. An error, a falsy result or an empty slot changes nothing |
| `Matching.LastRequestWins` | src/services/socket.ts:84-88 | after two requests, from any seekers, only the second is kept, and both service lookups were issued |
| `Matching.OfferReplacesWholesale` | src/services/socket.ts:116 | the new offer does not depend on the previous slot content, so an earlier price, rate, PIN or job id is dropped |
| `Matching.StaleLookupUsesCapturedRequest` | src/services/socket.ts:103-116 | a lookup that completes after a newer `service-request` still builds its offer from the earlier request's location, service and notes, while the request slot holds the newer one |
| `Matching.AcceptTwiceCreatesTwice` | src/services/socket.ts:129-134 | `accept-service` is not idempotent: a repeat issues a second `CreateService` carrying the second price and PIN |
| `Matching.ConfirmationFollowsCurrentOffer` | src/services/socket.ts:131-143 | if another expert's offer replaces the slot while `CreateService` is in flight, the job id goes into that offer, the confirmation names that other expert, and the accepted price and PIN are lost |
| `Matching.CreateFailureKeepsMergedOffer` | src/services/socket.ts:133-138 | a failed `CreateService` keeps the merged price and PIN and adds no job id |
| `Matching.InitialInv` | src/services/socket.ts:14-15 | the event-loop invariant holds when both slots are null and no call is outstanding |
| `Matching.StepKeepsInv` | src/services/socket.ts:84-155 | every handler step and every callback delivery keeps the event-loop invariant |
| `Matching.RunKeepsInv` | src/services/socket.ts:84-155 | in every interleaving, a held or broadcast offer is within the 5 km radius, a broadcast offer carries no price, PIN or job id, a broadcast expert list is non-empty, every `CreateService` call carries a PIN, and a job id is never empty |
| `Matching.Step` | src/services/socket.ts:84-155 | one turn of the event loop only appends to the broadcast and call logs; a socket event registers exactly one callback per call it issues, and a reply delivery issues no call and registers no callback |
| `Matching.Run` | src/services/socket.ts:84-155 | over any interleaving, broadcasts and outgoing calls are only ever appended, and no more callbacks are outstanding than calls were issued |
| `Matching.OnlyServiceRequestWritesRequest` | src/services/socket.ts:103-155 | in an interleaving with no `service-request`, the request slot never changes: `expertLocation`, `accept-service` and every callback leave it alone |
| `Matching.OfferChangesOnlyByLookup` | src/services/socket.ts:129-150 | in an interleaving with no user-lookup reply, an empty offer slot stays empty, and a filled one keeps its expert, seeker data, place, service, notes and distance; only price, rate, PIN and job id change |
| `Matching.SocketService.constructor` | src/services/socket.ts:14-15 | both slots start null, with nothing broadcast or called |
| `Matching.SocketService.OnServiceRequest` | src/services/socket.ts:84-88 | updating the fields in place performs `ServiceRequest` |
| `Matching.SocketService.OnOnlineExperts` | src/services/socket.ts:89-100 | the callback performs `OnlineExpertsReplied` |
| `Matching.SocketService.OnExpertLocation` | src/services/socket.ts:103-107 | the handler performs `ExpertLocation` and returns the captured context, or none when no lookup starts |
| `Matching.SocketService.OnUserLookup` | src/services/socket.ts:108-122 | the callback performs `UserLookupReplied` with the captured context |
| `Matching.SocketService.OnAcceptService` | src/services/socket.ts:129-134 | the handler performs `AcceptService` |
| `Matching.SocketService.OnCreateService` | src/services/socket.ts:134-150 | the callback re-reads the offer field and performs `CreateServiceReplied` |
| `Matching.ConfirmationRaceOnService` | src/services/socket.ts:129-150 | driven through the class: expert E1's offer is accepted, E2's offer lands while `CreateService` is in flight, and the last broadcast is the `expert-confirmation` for the job, naming E2 |

## Left out

- REST handlers in `src/modules/expert/controller.ts`, `src/modules/admin/controller.ts` and `src/modules/user/controller.ts`. Each forwards to an external gRPC service and maps its error or result to a status.
- Distance computation (`src/utils/calculateDistance.ts`). It is haversine in floating point. The model takes the distance as an input (a number of kilometres, or NaN) and keeps only the inclusive `<= 5` test.
- External calls. `jwt.verify`, `AuthService.RefreshToken`, `ExpertService.GetOnlineExperts`, `UserService.GetUser`, `ServiceManagement.CreateService` and `generatePIN` become parameters: their outcome, or the PIN. The calls themselves are recorded in logs.
- The socket.io transport, CORS set-up, the `disconnect` handler (it only logs) and all console logging. Broadcasts are recorded in a log.
- The `catch` blocks that only log, and the outer `catch` of `authenticateSocket` (src/services/socket.ts:75-78), which rejects the connection with "Authentication error". Only a synchronous throw reaches them. The modelled logic throws nothing synchronously, and a synchronous throw from a gRPC stub is not modelled.
- JavaScript values other than strings in the token sources (a JSON cookie, a numeric `body.token`). Each source is a string or missing.
- A missing request body. `req.body` is taken to be an object, as `express.json()` is installed at src/app.ts:25.
- The difference between a missing key and a key holding `undefined`. Both are None, so merging an `accept-service` payload without `totalAmount` leaves it None.
- Numbers are modelled as unbounded `real`/`int`, without floating-point rounding. Location payloads (`any` in the source) are a latitude/longitude pair that is carried along but never inspected.
- `StatusCode` numbers. The enum file `src/interfaces/enum` is not part of this model, so its symbolic names are used.
- Wiring and declarations: `src/app.ts`, the route files, the gRPC client configuration, and the `SocketService` constructor's server set-up.
