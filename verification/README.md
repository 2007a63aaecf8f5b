# Socket dispatch and authorization core, modelled in Dafny

This project models the decision logic of a Node.js/TypeScript API server.
Most of the server is Express, Mongoose and socket.io plumbing. The part
modelled here is the part that makes decisions:

- **The type/action router.** A socket `request` carries `type`, `action` and
  `payload`. The router (`SocketRouter.handleRequest`) checks the request's
  shape, then looks the pair up in a constant two-level service registry, runs
  the handler, and turns anything the handler throws into an
  `internal_server_error` envelope.
- **The response envelope.** `{status, msg, data?, errors, request}` and its
  three constructors, `success`, `error` and `validationError`.
- **Roles and permissions.**
  - The rank order is guest < user < admin. The `admin` requirement is an
    exact match.
  - `hasPermission` and `checkMultiplePermissions` decide single requirements
    and lists of them.
  - The Express gate `requirePermission` answers 401, 403 or `next`.
- **Authentication, in three places.**
  - The HTTP middlewares `authenticate`, `authenticateGuest` and
    `optionalAuth`.
  - The role-aware socket server `setupSocketIO`: its handshake, which tries
    the access token before the guest token, and its per-event role gates.
  - The type/action socket server `SocketService`: its handshake (token from
    `auth.token`, the `Authorization` header or the `accessToken` cookie),
    the callback-versus-emit delivery of router responses, and the admin-only
    `broadcast` relay.
- **Pagination arithmetic.** `getPaginationParams` (clamping and skip) and
  `createPaginationResult` (ceiling division, next and previous flags).
- **The two registered socket services.**
  - `userService`: `list`, `getById` and `update`.
  - `ugCourseService`: `list`, `create`, `update`, and a soft `delete`.
  - Both work over an in-memory collection of records held in store order.
  - The updates read the payload as the store reads an update document:
    plain fields and `$set` fields are written, `$unset` paths removed.

Token verification is an oracle, `verify(secret, token)`, that returns a claim
or nothing. The database's text search is an uninterpreted predicate
`matches(query, record)`. A store failure is an optional thrown value passed
in. The clock (`new Date()`) and the id the store assigns to a new record are
parameters.

The module layout follows the source files:

| module | file | source |
|---|---|---|
| `Values`, `Strings`, `Messages` | values.dfy, strings.dfy, messages.dfy | JavaScript values, truthiness, `parseInt`; string operations; src/constants/messages.ts |
| `SocketResponse` | socket_response.dfy | src/utils/socket-response.util.ts, src/types/socket.types.ts |
| `ServiceRegistry` | service_registry.dfy | src/sockets/service-registry.ts |
| `SocketRouter` | socket_router.dfy | src/sockets/socket-router.ts |
| `Permissions` | permissions.dfy | src/utils/permission.util.ts, src/types/index.ts |
| `Middleware`, `PermissionMiddleware` | permission_middleware.dfy | src/middleware/permission.middleware.ts |
| `Tokens` | tokens.dfy | the verification fallback orders shared by the handshakes |
| `AuthMiddleware` | auth_middleware.dfy | src/middleware/auth.middleware.ts |
| `SocketSetup` | socket_setup.dfy | src/socket/index.ts |
| `SocketService` | socket_service.dfy | src/sockets/index.ts, lines 107-224 |
| `Pagination` | pagination.dfy | src/utils/pagination.util.ts |
| `Collection` | collection.dfy | the store operations both services use (`findById`, `find`, `skip`, `limit`, `select("-password")`) |
| `UserSocketService` | user_service.dfy | src/services/socket/user.service.ts |
| `UgCourseService` | ug_course_service.dfy | src/services/socket/ug-course.service.ts, src/models/course.model.ts |
| `SocketDispatch` | dispatch.dfy | the router over the registered services |

Where the source changes state in place, the model does too:

- `AuthMiddleware.AuthRequest` holds `userId`, `userRole` and `user`.
- `SocketSetup.AuthenticatedSocket` holds `userId` and `userRole`.
- `SocketService.SocketData` holds `user`.
- `UserSocketService.UserDirectory` and `UgCourseService.CourseCatalog` hold
  the collections.

Their methods carry `modifies` clauses. Each method's postcondition states
the new field values in terms of the pure functions that the lemmas are
about. The collection-changing handlers are specified by `Effect` functions
(`UserSocketService.UpdateEffect`, `UgCourseService.CreateEffect`,
`UpdateEffect`, `DeleteEffect`) giving the answer and the collection
afterwards.

Where the code and its documentation differ, the model follows the code:

- **The `setupSocketIO` cookie token.** `split("accessToken=")[1].split(";")[0]`
  stops at the next `;` and also at a second `accessToken=`. It is not simply
  "everything up to the next `;`" (`SocketSetup.CookieToken`).
- **The type/action socket server's secret.** It verifies against
  `JWT_SECRET`. The HTTP middlewares and the role-aware socket server use the
  access and guest secrets. The model keeps these apart as
  `Tokens.LegacySecret`, `AccessSecret` and `GuestSecret`.
- **Event names.** The `request` and `response` event names are taken from
  the code.

## Model

| member | source | states |
|---|---|---|
| SocketResponse.Success | src/utils/socket-response.util.ts:4-12 | `status` is true and `errors` empty; `msg`, `data` and `request` are the ones given |
| SocketResponse.Error | src/utils/socket-response.util.ts:14-21 | `status` is false and there is no `data`; `msg`, `errors` and `request` are the ones given |
| SocketResponse.ValidationError | src/utils/socket-response.util.ts:23-30 | equals `error("validation_failed", errors, request)` |
| SocketResponse.Caught | src/sockets/socket-router.ts:35-41 | a caught throw becomes a failed envelope with no data, the given code, the request echoed, and one error: the thrown Error's message, or "Unknown error" for a non-Error value |
| SocketResponse.WellShapedIsBuilt | src/utils/socket-response.util.ts:3-31 | the constructors build exactly the well-shaped envelopes (success without errors, failure without data) |
| SocketRouter.Resolve | src/sockets/socket-router.ts:12-30 | a handler is found iff `type` and `action` are non-empty and both lookups succeed, and it is the registry's entry; every rejection is a failure that echoes the request |
| SocketRouter.HandleRequest | src/sockets/socket-router.ts:7-42 | validation, then service, then action, each with its exact code and message; a resolved handler's envelope is returned unchanged; a throw becomes `internal_server_error` with the message or "Unknown error" |
| SocketRouter.RejectionIgnoresHandlers | src/sockets/socket-router.ts:12-30 | on a rejected request the answer does not depend on the handlers (none runs) and is a failure |
| SocketRouter.OneHandlerCall | src/sockets/socket-router.ts:33-34 | the answer depends on the handlers only through the one call `handler(payload, request)` |
| SocketRouter.ServiceCheckedBeforeAction | src/sockets/socket-router.ts:17-29 | an unknown service is reported as `service_not_found`, never `action_not_found` |
| SocketRouter.EchoInvariant | src/sockets/socket-router.ts:7-42 | if handlers echo the request and build well-shaped envelopes, every router answer echoes the original request and is well shaped |
| SocketRouter.RouterEnvelopesFail | src/sockets/socket-router.ts:12-41 | every envelope the router builds itself is a failure with one error, no data and the request echoed |
| ServiceRegistry.RegistryContents | src/sockets/service-registry.ts:6-18 | exactly the services `ugCourseService` (list, create, update, delete) and `userService` (list, update, getById); `userService` has no `delete` |
| ServiceRegistry.RegistryInjective | src/sockets/service-registry.ts:6-18 | each handler is registered under exactly one (service, action) pair |
| SocketDispatch.Dispatch | src/sockets/socket-router.ts:17-34 | the router over the registered services: rejections as resolved; each action's answer, and for the changing actions the collection afterwards, equal that service's specification over the collections before; only the handler that ran changes a collection; `internal_server_error` never occurs because the services catch their own failures |
| Permissions.HasPermission | src/utils/permission.util.ts:18-40 | public and guest admit every role; user admits user and admin; admin admits only admin |
| Permissions.CheckMultiplePermissions | src/utils/permission.util.ts:42-44 | true iff some listed permission is satisfied, so false for the empty list |
| Permissions.RankStrictlyIncreasing | src/utils/permission.util.ts:12-16 | guest(1) < user(2) < admin(3), and the rank determines the role |
| Permissions.Monotone | src/utils/permission.util.ts:18-40 | a requirement a role passes is passed by every role of higher or equal rank |
| Permissions.AdminSealed | src/utils/permission.util.ts:35-37 | the admin requirement holds exactly for admin, alone or in a list |
| Permissions.CheckMultipleAppend | src/utils/permission.util.ts:42-44 | the check over `ps + qs` is the disjunction of the checks over `ps` and `qs` |
| PermissionMiddleware.RequirePermission | src/middleware/permission.middleware.ts:7-23 | no role gives 401 "Unauthorized access"; `next` iff some listed permission is satisfied; otherwise 403 "Forbidden: Insufficient permissions"; one outcome per call |
| PermissionMiddleware.EmptyListRejects | src/middleware/permission.middleware.ts:14-19 | with no permissions listed nothing passes, and a request with a role gets 403 |
| PermissionMiddleware.PublicAdmitsAnyRole | src/middleware/permission.middleware.ts:14-21 | a list containing `public` lets every request with a role through |
| PermissionMiddleware.GateMonotone | src/middleware/permission.middleware.ts:14-21 | whatever the gate lets through, it lets every higher-ranked role through |
| Tokens.AccessThenGuest | src/socket/index.ts:23-32 | access verification first and its claim wins; a guest grant iff access fails and guest succeeds; nothing iff both fail |
| Tokens.GuestThenAccess | src/middleware/auth.middleware.ts:55-64 | guest verification first; the access claim only when guest fails; nothing when both fail |
| Tokens.FallbackOrdersAgree | src/middleware/auth.middleware.ts:55-64 | both orders accept the same tokens and differ only on a token valid under both secrets |
| Strings.FindFrom | src/socket/index.ts:17 | `indexOf`: the leftmost occurrence at or after `from`, or none at all |
| Strings.TakeUntil | src/socket/index.ts:17 | `split(c)[0]`: the longest prefix without `c`, followed by `c` or the end |
| Strings.SecondPiece | src/middleware/auth.middleware.ts:14 | `split(sep)[1]`: the text between the first and second occurrence of `sep`, or undefined when `sep` does not occur |
| Strings.RemoveFirst | src/sockets/index.ts:152 | `replace(p, "")`: the first occurrence is cut out, and putting it back gives the input |
| AuthMiddleware.Or | src/middleware/auth.middleware.ts:44 | the JavaScript `or` of two optional strings: the first non-empty one |
| AuthMiddleware.BearerSpaceAt6 | src/middleware/auth.middleware.ts:13-14 | in a header starting "Bearer " the first space is at index 6 |
| AuthMiddleware.BearerToken | src/middleware/auth.middleware.ts:13-14 | present iff the header starts with "Bearer "; then the space-free field right after it, ended by a space or the end |
| AuthMiddleware.AccessTokenSource | src/middleware/auth.middleware.ts:11-15 | the `accessToken` cookie if filled, else the Bearer field; none iff both are empty |
| AuthMiddleware.GuestTokenSource | src/middleware/auth.middleware.ts:44-48 | `guestToken` cookie, then `accessToken` cookie, then the Bearer field |
| AuthMiddleware.AuthenticateOutcome | src/middleware/auth.middleware.ts:8-40 | every error is 401; no token gives "Access token required"; `next` iff the token verifies and the user exists and is active; "User not found" exactly for a missing or inactive user; "Invalid or expired token" exactly when the token fails to verify or the user lookup throws |
| AuthMiddleware.AuthenticateGuestOutcome | src/middleware/auth.middleware.ts:42-70 | no token gives "Access token required"; `next` iff guest or access verification succeeds; otherwise "Invalid or expired token" |
| AuthMiddleware.AuthRequest.Authenticate | src/middleware/auth.middleware.ts:8-40 | the outcome above; `userId` and `userRole` are written as soon as the token verifies; `user` is set to the active record the lookup returned, only on `next` |
| AuthMiddleware.AuthRequest.AuthenticateGuest | src/middleware/auth.middleware.ts:42-70 | guest grant gives role guest with `userId` untouched; access grant gives the claim's id and role; failure changes nothing |
| AuthMiddleware.AuthRequest.OptionalAuth | src/middleware/auth.middleware.ts:72-94 | always `next`; the claim is attached only when an access token verifies |
| AuthMiddleware.GuestTokenRefusedByAuthenticate | src/middleware/auth.middleware.ts:17-39 | a token that fails access verification is refused by `authenticate` with "Invalid or expired token", whatever the user store holds |
| AuthMiddleware.CookieShadowsHeader | src/middleware/auth.middleware.ts:11-15 | with a filled `accessToken` cookie the Authorization header does not matter |
| SocketSetup.CookieToken | src/socket/index.ts:17 | the text after the first `accessToken=`, containing no `;` and no further `accessToken=`, and ending at the next `;`, the next `accessToken=` or the end; present whenever the key occurs |
| SocketSetup.HandshakeToken | src/socket/index.ts:16-21 | `auth.token` if filled, else a non-empty cookie token, else no token |
| SocketSetup.AuthenticatedSocket.Authenticate | src/socket/index.ts:14-38 | no token gives "Access token required"; access claim sets `userId` and `userRole`; guest sets role guest and leaves `userId`; both failing gives "Socket authentication failed" with nothing written |
| SocketSetup.GuestPing | src/socket/index.ts:61-76 | pong iff the socket has a role; otherwise the Forbidden error |
| SocketSetup.PrivateMessage | src/socket/index.ts:79-98 | a reply to the user's room iff there is a user id and the role is user or admin; otherwise "Unauthorized access" |
| SocketSetup.AdminBroadcast | src/socket/index.ts:101-117 | as written: a non-admin gets the Forbidden error; an admin with no data makes the listener throw; otherwise an announcement of `data.message` |
| SocketSetup.AdminBroadcastWithoutData | src/socket/index.ts:110-113 | an admin broadcast with null or missing data throws instead of announcing |
| SocketSetup.GuardedAdminBroadcast | src/socket/index.ts:101-117 | with `data?.message`: never throws; an announcement iff the role is admin, of the message when there is one; agrees with the as-written handler whenever data is present |
| SocketSetup.MessageField | src/socket/index.ts:113 | `data.message` is defined exactly when data is an object holding `message` |
| SocketSetup.JoinRoom | src/socket/index.ts:120-134 | joined iff the socket has a user id, whatever its role |
| SocketSetup.GuestSocketGates | src/socket/index.ts:61-127 | a guest socket can ping but cannot message privately, broadcast, or (without a user id) join rooms |
| SocketService.MatchFrom | src/sockets/index.ts:140 | the leftmost position where `accessToken=([^;]+)` matches, or none |
| SocketService.CookieRegexToken | src/sockets/index.ts:138-143 | the non-empty, `;`-free run after the leftmost match, ended by `;` or the end; present whenever the regex matches a non-empty cookie |
| SocketService.HandshakeToken | src/sockets/index.ts:134-145 | `auth.token`, then the Authorization header, and the cookie only when both are empty |
| SocketService.StripBearer | src/sockets/index.ts:152 | the token with its first "Bearer " cut out, wherever it occurs |
| SocketService.SocketData.Authenticate | src/sockets/index.ts:132-160 | no token gives "Unauthorized access"; the verifier sees the stripped token under `JWT_SECRET`; failure gives "Invalid or expired token" with `user` untouched; success stores the claim |
| SocketService.Deliver | src/sockets/index.ts:179-183 | exactly one delivery of the response: to the callback if there is one, else as a `response` event |
| SocketService.OnRequest | src/sockets/index.ts:169-184 | the delivered response is the router's answer |
| SocketService.DeliveryModesAgree | src/sockets/index.ts:176-183 | callback and emit carry the same envelope and are different deliveries |
| SocketService.Broadcast | src/sockets/index.ts:187-191 | relayed, unchanged, iff the socket's claim has role admin |
| SocketService.BroadcasterPassesEveryGate | src/sockets/index.ts:187-191 | a socket allowed to broadcast satisfies every permission requirement |
| Pagination.GetPaginationParams | src/utils/pagination.util.ts:3-19 | page ≥ 1 (NaN or 0 gives 1); 1 ≤ limit ≤ 100 (NaN or 0 gives 10, negative gives 1, over 100 gives 100); skip = (page-1)·limit ≥ 0; sortBy defaults to "createdAt"; order 1 iff "asc", else -1 |
| Pagination.CeilDiv | src/utils/pagination.util.ts:27 | `ceil(total / limit)`: the pages hold `total`, and one page fewer would not |
| Pagination.CreatePaginationResult | src/utils/pagination.util.ts:21-40 | data, total, page and limit unchanged; totalPages is the ceiling; hasNextPage iff page < totalPages; hasPrevPage iff page > 1 |
| Pagination.TotalPagesIsLeast | src/utils/pagination.util.ts:27 | no smaller page count holds `total` records |
| Pagination.LastPageHasNoNext | src/utils/pagination.util.ts:27-37 | the last page has no next page, and the page before it does |
| Collection.FindById | src/services/socket/user.service.ts:84 | the position of the first record with that `_id`, or none iff no record has it |
| Collection.Filter | src/services/socket/user.service.ts:23-24 | exactly the records the query keeps, each at most as often as stored, never more |
| Collection.FilterConcat | src/services/socket/user.service.ts:23-24 | selection distributes over concatenation, so it keeps store order |
| Collection.FilterSingle | src/services/socket/user.service.ts:23-24 | a single record is kept iff the query accepts it |
| Collection.Window | src/services/socket/user.service.ts:23 | `skip`/`limit`: the contiguous run from `skip`, of `abs(limit)` records or to the end, and limit 0 is no limit |
| Collection.WindowWithin | src/services/socket/user.service.ts:23 | a window holds only records of what it cuts |
| Collection.ListArgsOf | src/services/socket/user.service.ts:8-11 | query defaults to "", page to 1 and limit to 10; a present `page` or `limit` is read by `Number.parseInt`, a present query taken as is |
| Values.ParseInt | src/services/socket/user.service.ts:10-11 | `Number.parseInt(String(v))`: a number is itself, a string is read by `ParseDecimal`, anything else is NaN |
| Values.ParseDecimal | src/services/socket/user.service.ts:10-11 | a number is read iff the string starts with a digit, or with a sign and then a digit |
| Values.LeadingDigits | src/services/socket/user.service.ts:10-11 | the leading digit run has a value exactly when the string starts with a digit |
| Values.DigitRunOfDigits | src/services/socket/user.service.ts:10-11 | the digit run of digits followed by a non-digit is exactly those digits |
| Values.LeadingDigitsOfDigits | src/services/socket/user.service.ts:10-11 | digits followed by anything that does not start with a digit are read as the digits' value, whatever follows |
| Values.ParseSign | src/services/socket/user.service.ts:10-11 | a string whose leading digit run is `m` is read as `m`, also after a `+`, and as `-m` after a `-` |
| Collection.WindowOf | src/services/socket/user.service.ts:10-12 | the store accepts the window iff page and limit parse and skip = (page-1)·limit is not negative |
| Collection.DefaultWindow | src/services/socket/user.service.ts:8-12 | an empty payload asks for skip 0, limit 10 |
| Collection.StripPassword | src/services/socket/user.service.ts:23 | `select("-password")`: no password, every other field kept |
| Collection.PlainPart | src/services/socket/user.service.ts:58 | the non-operator fields of an update document, unchanged |
| Collection.ApplyWrites | src/services/socket/user.service.ts:58 | written fields take their new values, removed paths go, every other field and `_id` stay |
| Collection.ApplyUpdate | src/services/socket/user.service.ts:58 | `findByIdAndUpdate` on the found record: `$unset` paths removed, else `$set` fields written, else plain fields written; `_id` and every untouched field kept |
| Collection.PrefixStep | src/services/socket/user.service.ts:12-23 | the next page continues the records read so far, by up to `limit` records |
| Collection.PagesTile | src/services/socket/user.service.ts:12-23 | paging with a fixed positive limit returns the selection in order, each record once |
| UserSocketService.QueryUsers | src/services/socket/user.service.ts:14-35 | the items are the `skip`/`limit` window of the matching users in store order, each without its password; totalCount counts every match; at most `abs(limit)` items; the page echoes page and limit |
| UserSocketService.List | src/services/socket/user.service.ts:6-45 | `users_found` with the page above iff there is no store failure and the window is valid; a store failure, or a window the store rejects, gives `failed_to_fetch_users` with that error's message |
| UserSocketService.GetById | src/services/socket/user.service.ts:76-98 | no id gives validation_failed ["User ID is required"]; a failure gives `failed_to_fetch_user`; success iff a user has that id; then `user_found` with that user without password; else `user_not_found` ["User not found"] |
| UserSocketService.UserDirectory.Update | src/services/socket/user.service.ts:47-74 | corrected (see Findings): the answer and the users afterwards are `UpdateEffect` of the users before |
| UserSocketService.UpdateEffect | src/services/socket/user.service.ts:47-74 | corrected (see Findings): no id, a failure or an unknown id leave the users unchanged with the matching error; otherwise the found user is `Updated`; no stored password or `_id` changes and ids stay unique; the answer hides the password |
| UserSocketService.UpdatedAsWritten | src/services/socket/user.service.ts:49-58 | the update as sent, operators included: the password is kept whenever no `$set` or `$unset` names it |
| UserSocketService.SetOperatorChangesPassword | src/services/socket/user.service.ts:55-58 | a payload `{ id, $set: { password } }` overwrites the stored password |
| UserSocketService.UpdateData | src/services/socket/user.service.ts:49-56 | exactly the plain payload fields except `id` and `password`: nothing else, and no operator keys |
| UserSocketService.Updated | src/services/socket/user.service.ts:49-58 | every plain payload field but `id`, `password` and `_id` is written, every other field kept, and no field is added that is not such a payload field; the password and `_id` never change |
| UserSocketService.GetAfterUpdate | src/services/socket/user.service.ts:76-90 | after a successful update, `getById` finds the updated record, without password |
| UgCourseService.Strict | src/services/socket/ug-course.service.ts:55-58 | only schema paths are stored |
| UgCourseService.MissingPaths | src/models/course.model.ts:19-37 | exactly the required paths that are unset, null, or an empty required string |
| UgCourseService.NewCourse | src/services/socket/ug-course.service.ts:55-58 | `graduation_type` is "ug" whatever the payload says; payload schema fields win over defaults; defaults fill the rest; the id is the payload's or a fresh one; only schema paths, and no field that neither the payload nor the defaults supply |
| UgCourseService.Merged | src/services/socket/ug-course.service.ts:72-80 | strict update on the found course: schema paths in `$unset` removed, else `$set` schema fields written, else plain schema fields written; `_id`, non-schema paths and untouched fields kept; no path added that the update does not write |
| UgCourseService.SoftDeleted | src/services/socket/ug-course.service.ts:104 | `deleted_at` becomes the current time; nothing else changes, the record stays |
| UgCourseService.KeyLeTotal | src/services/socket/ug-course.service.ts:29 | any two `order_index` keys are comparable |
| UgCourseService.KeyLeTransitive | src/services/socket/ug-course.service.ts:29 | the key order is transitive |
| UgCourseService.InsertByOrder | src/services/socket/ug-course.service.ts:29 | inserting into a sorted run keeps it sorted, adds exactly that record |
| UgCourseService.SortByOrder | src/services/socket/ug-course.service.ts:29 | `sort({order_index: 1})`: sorted ascending, and a permutation of its input |
| UgCourseService.QueryCourses | src/services/socket/ug-course.service.ts:15-31 | the items are the `skip`/`limit` window of the matching live `ug` courses sorted by `order_index`; hence sorted, stored, live, accepted by the search, at most `abs(limit)`; totalCount counts every match; page and limit echoed |
| UgCourseService.List | src/services/socket/ug-course.service.ts:6-51 | `ug_courses_found` with that page iff there is no failure and the window is valid; a failure, or a window the store rejects, gives `failed_to_fetch_courses` with that error's message |
| UgCourseService.CourseCatalog.Create | src/services/socket/ug-course.service.ts:53-68 | the answer and the courses afterwards are `CreateEffect` of the courses before |
| UgCourseService.CreateEffect | src/services/socket/ug-course.service.ts:53-68 | a missing required field, a store failure or a taken id give `failed_to_create_course` with the error's message and leave the courses unchanged; otherwise the new course is appended and returned; unique ids are preserved |
| UgCourseService.CourseCatalog.Update | src/services/socket/ug-course.service.ts:70-94 | the answer and the courses afterwards are `UpdateEffect` of the courses before |
| UgCourseService.UpdateEffect | src/services/socket/ug-course.service.ts:70-94 | no id gives validation_failed ["Course ID is required"]; a failure or an unknown id (`course_not_found` ["Course not found"]) leave the courses unchanged; otherwise the found course is `Merged` and returned; unique ids are preserved |
| UgCourseService.CourseCatalog.Delete | src/services/socket/ug-course.service.ts:96-118 | the answer and the courses afterwards are `DeleteEffect` of the courses before |
| UgCourseService.DeleteEffect | src/services/socket/ug-course.service.ts:96-118 | the same guards; otherwise the course stays with `deleted_at` stamped and is returned; unique ids are preserved |
| UgCourseService.CreatedCourseIsUg | src/services/socket/ug-course.service.ts:55-58 | a created course is `ug` whatever the payload, and live unless the payload sets `deleted_at` |
| UgCourseService.SoftDeleteHides | src/services/socket/ug-course.service.ts:15-18 | after a soft delete, no search selects a record with that id (ids are unique) |
| UgCourseService.ListingOnlyLive | src/services/socket/ug-course.service.ts:15-18 | a record that is not live (not `ug`, or soft-deleted) is in no listing, whatever the search or window |
| UgCourseService.WindowSorted | src/services/socket/ug-course.service.ts:29 | skip and limit keep the sort order |
| UgCourseService.SortKeepsSelection | src/services/socket/ug-course.service.ts:29-30 | sorting neither adds nor drops records |

## Left out

- JWT signing and verification, including expiry, are an oracle: `verify(secret, token)` gives a claim or nothing. The clock is not modelled.
- socket.io transport is not modelled: rooms, `io.emit` fan-out, the personal `user:<id>` room joined on connection, `join_room`/`leave_room`, `emitToRoom`/`emitToUser`, logging and timestamps. Only the decision of what is delivered is modelled.
- The `public:message` event is not modelled. It is an ungated relay with no decision in it.
- Redis caching, the database connection, server bootstrap, Swagger, the Express routes and controllers, the REST user service, the auth service, the seed script and the HTTP error handler are not part of this model.
- `sendError`'s response body is not modelled; `Middleware.Outcome` keeps only its status and message.
- Mongoose is replaced by an in-memory collection in store order. Not modelled:
  - ObjectId casting, and the CastError a malformed id raises;
  - type casting of field values;
  - the `createdAt`/`updatedAt` timestamps and `__v`.
- The database's case-insensitive `$regex` search is an uninterpreted predicate `matches`. A store failure is an optional thrown value supplied by the caller.
- Collection.WindowOf: a NaN page or limit, or a negative skip, is a query the store rejects. The error it raises is a parameter (`rejection`); its exact message is not modelled.
- UgCourseService.KeyOf: `order_index` values that are neither numbers nor null all sort after the numbers, and their order among themselves is not modelled. Ties keep store order; the database leaves that order unspecified.
- UgCourseService.CourseCatalog.Create: the duplicate-key message is abbreviated to "E11000 duplicate key error". When several required paths are missing, the order of the validation message's parts follows the schema's declaration order.
- UgCourseService.Merged: update validators are off, as the store's default. An `_id` in the payload, plain or under `$set`/`$unset`, is dropped rather than raising the store's immutable-field error.
- Collection.ApplyUpdate: only the `$set` and `$unset` operators are modelled; other operators (`$inc`, `$push`, `$rename`, ...) and dotted paths are not. A `$set` or `$unset` whose operand is not an object is ignored rather than rejected. A path both written and unset in one update, which the store rejects as a conflict, is modelled as removed; a path both plain and under `$set` takes the `$set` value.
- UserSocketService.Updated: an `_id` in the payload is dropped, as for courses. Fields outside the user schema are not filtered, because the user model is not part of this model. The handler uses this corrected update (see Findings); the update as written is `UpdatedAsWritten`.
- SocketSetup.GuardedAdminBroadcast: stands in for `admin:broadcast` as the corrected handler (see Findings); the as-written handler is `AdminBroadcast`. A `TypeError` thrown in the listener is modelled as `ListenerThrew`; what socket.io or the process then does with it is not modelled. `null` and `undefined` are both `Null`.
- Values.ParseInt: `Number.parseInt` is an optional sign followed by decimal digits. Leading whitespace, hexadecimal prefixes, and the string forms of booleans, arrays and objects are not modelled. Numbers are integers, so fractional inputs are not modelled either.
- Pagination.CreatePaginationResult: requires `limit >= 1` and a non-negative `total`. Its callers pass a count and a limit produced by `getPaginationParams`. A zero or negative limit, which would give `Infinity` or `NaN` pages, is not modelled.
- Tokens.Claim: a verified claim's `role` is one of the three roles or absent. A signed token carrying any other role string is not modelled; in the source `roleHierarchy[role]` is then undefined, so every permission but `public` fails and `requirePermission` answers 403.
- SocketService.OnRequest: a null or missing request throws in the listener (the log line reads `data.type`) and nothing is delivered; `Request` always holds an object, so this case is not modelled.
- UserSocketService.QueryUsers and UgCourseService.QueryCourses: the `Promise.all` pair of `find` and `countDocuments` is modelled as reading one snapshot of the collection; the two queries can see different states in the store.
- Collection.WindowOf and Pagination.CreatePaginationResult: `skip` and `totalPages` are exact integers, where JavaScript computes them in doubles that lose precision above 2^53.
- Pagination.GetPaginationParams: returns `sortBy` and `sortOrder` separately, not as the one-key object `{ [sortBy]: sortOrder }`.
- The request's `type`, `action` and `payload` are modelled as strings and an object. A non-string `type` or `action`, and a missing `payload`, are not modelled. Registry lookup is plain map membership, without JavaScript prototype keys such as `toString`.

## Findings

| source | as written | input that shows it | evidently intended | confidence | as-written member | corrected member |
|---|---|---|---|---|---|---|
| src/services/socket/user.service.ts:55-58 | `delete updateData.password` removes only a top-level `password`; the rest of the payload goes to `findByIdAndUpdate` as an update document, whose `$set` operator the store applies | payload `{ id: "u1", $set: { password: "chosen" } }` on a user whose password is "hash" | `update` never changes a stored password | high for the store's reading of `$set`; not executed | UserSocketService.UpdatedAsWritten, UserSocketService.SetOperatorChangesPassword | UserSocketService.Updated, UserSocketService.UpdateEffect, UserSocketService.UserDirectory.Update |
| src/socket/index.ts:110-113 | the `admin:broadcast` listener reads `data.message` with no guard | an admin emits `admin:broadcast` with no argument or with `null` | every admin broadcast is announced (`data?.message`) | high; not executed | SocketSetup.AdminBroadcast, SocketSetup.AdminBroadcastWithoutData | SocketSetup.GuardedAdminBroadcast |
