# Real-time authentication layer of the task tracker, in Dafny

This project models the real-time connection layer of a multi-user task tracker, and proves properties of that model. It covers:
- the socket.io gateway on the server, which authenticates connections at the handshake or later through an `authenticate` message and puts authenticated connections in personal rooms `user_<id>`;
- the client-side controller that creates, tears down and authenticates the socket as the login state changes;
- the client's HTTP helpers: token interceptors, response unwrapping, OAuth URLs and task endpoint paths;
- the task record with its enumerated status and priority.

Files, one module each:

- `wrappers.dfy` (`Wrappers`): `Option`, `Result` and the truthiness of an optional string. A missing string and `""` are both falsy.
- `browser.dfy` (`Browser`): `localStorage` as a map held by a class, and `window.location`.
- `gateway.dfy` (`Gateway`): server/server.js:134-193. It has two layers:
  - Each handler as a function (`HandshakeAuth`, `ConnectionRooms`, `AuthenticateStep`). A whole-gateway state `Hub` holds the open connections' `userId`/`authenticated` fields, the room table and the replies sent. Lemmas about `Hub` cover whole traces of events.
  - The objects the handlers mutate: `Socket`, the room table `Adapter`, and `SocketServer`. Their methods are proved equal to those functions.
  - JWT verification is the uninterpreted parameter `verify: Token -> Option<UserId>`. `None` stands for the cases where `jwt.verify` throws.
- `socket_context.dfy` (`SocketContext`): client/src/context/SocketContext.jsx. It contains the pure `WsUrl` rule. `SocketProvider` is a class whose fields are the `socketRef` ref and the `socket` and `connected` state. Its methods are the effect body, the cleanup, the socket event handlers and `emit`/`on`/`off`/`authenticate`. `ClientSocket` is the socket.io client socket: its `connected` flag, the packets it sent and its listeners.
- `api.dfy` (`Api`): client/src/services/api.js. JSON values carry JavaScript truthiness and property access. The file holds both update unwrappings, the failure message, the URL and path builders, and the two interceptors as methods over `RequestConfig`, `LocalStorage` and `Location`.
- `task.dfy` (`TaskModel`): server/models/Task.js. It has status and priority enumerations with their names and validators, and a defaulting, validating `NewTask`. It also has ownership and sharing predicates.

The code does not behave like a registry keyed by user that migrates a connection between users; the model follows the code:
- Re-authenticating a connection as another user joins the new personal room and does not leave the old one. Broadcasts to the old user still reach the connection (`Gateway.ReauthenticateKeepsOldRoom`). This is the only way a connection can be in a room other than its current user's: `Gateway.RunJoinsOnlyOwnRooms` shows that every room it joins is the room of a user it was authenticated as at some point.
- A repeated `authenticate` is idempotent on fields and rooms, but every call sends its own acknowledgement (`Gateway.AuthenticateTwice`). This holds while the token keeps verifying the same way; see "Left out" on token expiry.
- The `disconnect` handler only logs. Removing a closed connection from its rooms is done by socket.io itself, not by server.js. The trace model includes that removal as an assumption about the library (`Gateway.LeaveAll`). The `SocketServer.OnDisconnect` method, which models the handler, changes nothing.
- No registry is keyed by user, and there is no notification dispatcher. The room table, read through `Gateway.Targets`, is the only broadcast target. The code that publishes notifications is not part of this model.

## Model

| member | source | states |
|---|---|---|
| `Gateway.UserRoomInjective` | server/server.js:167 | two user ids name the same personal room `user_<id>` exactly when they are equal |
| `Gateway.Targets` | server/server.js:196 | a broadcast to a room reaches exactly the connections that joined it, and nobody for an unknown room |
| `Gateway.Join` | server/server.js:167 | `socket.join` adds the connection to the room, removes no membership, and adds nobody else anywhere |
| `Gateway.HandshakeAuth` | server/server.js:140-160 | the socket is authenticated exactly when the handshake token is present, non-empty and verifies; the user id is then the verified subject, otherwise null; `authenticated ⇔ userId ≠ null` |
| `Gateway.ConnectionRooms` | server/server.js:163-170 | an authenticated socket ends up in its own room and joins no other; an unauthenticated one changes no room; other connections' memberships are unchanged |
| `Gateway.AuthenticateStep` | server/server.js:181-192 | success sets the verified id and `authenticated`, joins `user_<id>` and no other room, and replies `authenticated` with that id; failure replies "Invalid token" and keeps fields and rooms; the invariants and earlier authentication are kept; rooms only grow; other connections are untouched |
| `Gateway.LeaveAll` | server/server.js:172-178 | after a connection closes it is in no room and everyone else's membership is unchanged (socket.io's behaviour, assumed) |
| `Gateway.Apply` | server/server.js:134-193 | one server step: a `Connect` (middleware, then `connection` handler) opens the connection with `HandshakeAuth`'s fields; an `authenticate` message keeps the open set and records exactly one reply to its sender; a `Disconnect` closes the connection (the room removal is socket.io's, see `Gateway.LeaveAll` under "Left out"); a `Connect` for an open id or a message for a closed id changes nothing (see the line on unique ids under "Left out") |
| `Gateway.ApplyPreservesInv` | server/server.js:134-193 | every event keeps: each open connection has `authenticated ⇔ userId ≠ null` and is in its own room if authenticated; rooms hold only open connections |
| `Gateway.RunPreservesInv` | server/server.js:134-193 | the same invariant holds after any trace of connects, authenticate messages and disconnects |
| `Gateway.ReachableInv` | server/server.js:134-193 | every hub reached from a server with no connections and no rooms, by any trace and any verifier, satisfies that invariant |
| `Gateway.ApplyJoinsOnlyOwnRoom` | server/server.js:163-192 | every room membership an event adds belongs to the connection the event is about, which is then open and authenticated, and the room is its current user's `user_<id>` |
| `Gateway.RunJoinsOnlyOwnRooms` | server/server.js:163-192 | over any trace, a connection is in a room it was not in at the start only if, at some event, it was authenticated as the user that room belongs to; no trace puts it in another user's room |
| `Gateway.ConnectNeverRejects` | server/server.js:140-170 | a connection is opened whatever its token; it is authenticated exactly when the token verifies, and then sits in the verified user's room; otherwise its fields are null/false and no room changes |
| `Gateway.FailedAuthenticateChangesNothing` | server/server.js:189-191 | a failed `authenticate` appends one "Invalid token" error for that connection and changes no field, no room and no connection |
| `Gateway.ApplyMonotone` | server/server.js:172-192 | no event makes an open connection unauthenticated or removes it from a room |
| `Gateway.RunMonotone` | server/server.js:163-192 | over any trace that does not close the connection, it stays open and authenticated once authenticated, and keeps every room it joined |
| `Gateway.ReauthenticateKeepsOldRoom` | server/server.js:184-186 | re-authenticating as a different user sets the new id, joins the new room and stays in the old, distinct room |
| `Gateway.AuthenticateTwice` | server/server.js:183-187 | with the same verifier answer for both, a second identical `authenticate` leaves fields and rooms as the first left them and repeats the reply |
| `Gateway.OthersUntouched` | server/server.js:163-192 | an event on one connection changes no other connection's fields or memberships |
| `Gateway.DisconnectLeavesEveryRoom` | server/server.js:172-178 | a closed connection is gone and no room targets it |
| `Gateway.AuthenticateAfterConnectScenario` | server/server.js:163-192 | connect without token, then a valid `authenticate`: one `authenticated(u)` reply and the connection is the only target of `user_u`; after disconnect the room reaches nobody |
| `Gateway.Adapter.AddMember` | server/server.js:167 | the adapter's table becomes `Join` of the old table |
| `Gateway.SocketServer.Handshake` | server/server.js:134-161 | `next()` is called without an error on every path; the socket's fields become `HandshakeAuth` of the token; a websocket upgrade gets `cache-control: no-cache` |
| `Gateway.SocketServer.OnConnection` | server/server.js:163-170 | the room table becomes `ConnectionRooms` of the socket's fields |
| `Gateway.SocketServer.OnAuthenticate` | server/server.js:181-192 | fields, room table and emitted replies become exactly `AuthenticateStep`'s |
| `Gateway.SocketServer.OnDisconnect` | server/server.js:172-178 | changes no field, room or reply (no frame to modify); only the logged line depends on `authenticated` |
| `SocketContext.StripApiSuffix` | client/src/context/SocketContext.jsx:40 | one trailing "/api" is removed, and a URL without it is unchanged |
| `SocketContext.StripApiSuffixOnce` | client/src/context/SocketContext.jsx:40 | appending "/api" and stripping gives back the original, even one already ending in "/api" |
| `SocketContext.WsUrl` | client/src/context/SocketContext.jsx:35-44 | `VITE_WS_URL` if set and non-empty, else a non-empty `VITE_API_URL` minus one trailing "/api", else "http://localhost:5000" |
| `SocketContext.SocketProvider.RunEffect` | client/src/context/SocketContext.jsx:13-101 | logged out: an existing socket is disconnected, keeping its packets and listeners, and ref, socket and `connected` are cleared, else nothing changes; logged in with a connected socket: nothing changes; otherwise a fresh unconnected socket for `WsUrl` with the stored token and the five event handlers becomes the ref and the cleanup is registered |
| `SocketContext.SocketProvider.NewSocket` | client/src/context/SocketContext.jsx:48-99 | a fresh, unconnected, open socket for `WsUrl` carrying the stored token, with nothing sent and exactly one listener for each of the five events |
| `SocketContext.SocketProvider.Cleanup` | client/src/context/SocketContext.jsx:104-112 | an existing socket is disconnected, keeping its packets and listeners, and ref, socket and `connected` are cleared; with an empty ref nothing changes |
| `SocketContext.SocketProvider.DependenciesChanged` | client/src/context/SocketContext.jsx:13-113 | after sign-out an existing socket is disconnected, no socket ref remains, nothing is created and no cleanup is pending; signed in with a registered cleanup, the old socket is disconnected, socket and `connected` are cleared, and a fresh socket for `WsUrl` with the stored token and the five handlers becomes the ref; signed in without one, socket and `connected` keep their values, a connected socket is kept unchanged, and otherwise a fresh socket is created the same way |
| `SocketContext.SocketProvider.OnConnect` | client/src/context/SocketContext.jsx:63-74 | `connected` becomes true and the socket is published; `authenticate` with the stored token is emitted exactly when a non-empty token is stored |
| `SocketContext.SocketProvider.OnDisconnect` | client/src/context/SocketContext.jsx:76-85 | `connected` always becomes false; socket and ref are cleared exactly for 'io client disconnect' and 'io server disconnect' |
| `SocketContext.SocketProvider.OnConnectError` | client/src/context/SocketContext.jsx:87-90 | `connected` becomes false |
| `SocketContext.SocketProvider.OnAuthenticated` | client/src/context/SocketContext.jsx:92-95 | `connected` becomes true |
| `SocketContext.SocketProvider.Emit` | client/src/context/SocketContext.jsx:115-119 | the packet is sent exactly when a socket is published and `connected` is true; the socket's listeners, `connected` and closed flags never change |
| `SocketContext.SocketProvider.On` | client/src/context/SocketContext.jsx:121-125 | a listener is added when a socket is published; its sent packets and flags never change |
| `SocketContext.SocketProvider.Off` | client/src/context/SocketContext.jsx:127-131 | every listener for the event is removed when a socket is published; its sent packets and flags never change |
| `SocketContext.SocketProvider.Authenticate` | client/src/context/SocketContext.jsx:133-140 | the stored token is sent exactly when the published socket is connected and a non-empty token is stored; its listeners and flags never change |
| `Api.UnwrapUpdate` | client/src/services/api.js:85-97 | returns `data.data.task` if truthy, else `data.data` if truthy, else `data` |
| `Api.UnwrapUpdateResponse` | client/src/services/api.js:64-72 | returns `{data: data.data.task}` or `{data: data.data}` in that priority, else the response itself |
| `Api.UnwrappingsAgree` | client/src/services/api.js:64-97 | the `data` of `tasksAPI.updateTask`'s result equals what the exported `updateTask` returns |
| `Api.UnwrapUpdateIsNested` | client/src/services/api.js:85-97 | the unwrapped value is the body or a field nested in it, never anything else |
| `Api.Decimal` | client/src/services/api.js:100 | a status prints as a non-empty string of decimal digits with no leading zero; only 0 prints with a leading "0" |
| `Api.DecimalRoundTrip` | client/src/services/api.js:100 | the printed status reads back as the same number |
| `Api.UpdateFailureMessage` | client/src/services/api.js:100 | the message is "Failed to update task: " followed by the status (reading back as that number, with no leading zero), or by "Unknown error" when there is no status or it is 0 |
| `Api.FailureMessagesDistinguishStatus` | client/src/services/api.js:100 | distinct non-zero statuses give distinct messages, none equal to the unknown-error message (a status of 0 reads "Unknown error") |
| `Api.UpdateTask` | client/src/services/api.js:78-102 | a response yields the unwrapped body; a failure yields exactly the `UpdateFailureMessage` of its status, which starts "Failed to update task: " |
| `Api.ApiBase` | client/src/services/api.js:42 | `VITE_API_URL` if set and non-empty, else "http://localhost:5000/api" |
| `Api.OAuthUrl` | client/src/services/api.js:41-55 | the base followed by the provider's own path: "/auth/google" for Google, "/auth/github" for GitHub, "/auth/linkedin" for LinkedIn |
| `Api.OAuthUrlsDistinct` | client/src/services/api.js:41-55 | each provider has its own URL under the same base |
| `Api.TaskPath` | client/src/services/api.js:61 | "/tasks/" followed by the id, and nothing else |
| `Api.TaskPathInjective` | client/src/services/api.js:61 | different ids give different task paths |
| `Api.GetTasks` | client/src/services/api.js:60 | GET "/tasks" with the filters as query parameters, the empty object when omitted, and no body |
| `Api.GetTask` | client/src/services/api.js:61 | GET the task's path, with no query and no body |
| `Api.CreateTask` | client/src/services/api.js:62 | POST "/tasks" with the task as body and no query |
| `Api.UpdateTaskRequest` | client/src/services/api.js:64 | PUT the task's path with the updates as body and no query |
| `Api.DeleteTask` | client/src/services/api.js:74 | DELETE the task's path, with no query and no body |
| `Api.ShareTask` | client/src/services/api.js:75 | POST `{email}` to the task's path followed by "/share", with no query |
| `Api.GetMe` | client/src/services/api.js:39 | GET "/auth/me", with no query and no body |
| `Api.Logout` | client/src/services/api.js:40 | POST "/auth/logout", with no query and no body |
| `Api.AttachToken` | client/src/services/api.js:11-19 | `Authorization` becomes "Bearer " + token exactly when a non-empty token is stored; otherwise headers are untouched; the same config is returned |
| `Api.RejectResponse` | client/src/services/api.js:28-34 | a 401 removes only the stored token and goes to "/login"; any other status changes neither; the error is always rejected unchanged |
| `TaskModel.ParseStatus` | server/models/Task.js:6 | exactly "pending", "in-progress" and "completed" are valid statuses, each naming its value |
| `TaskModel.ParsePriority` | server/models/Task.js:7 | exactly "low", "medium" and "high" are valid priorities, each naming its value |
| `TaskModel.StatusNameRoundTrip` | server/models/Task.js:6 | every status name validates back to that status |
| `TaskModel.PriorityNameRoundTrip` | server/models/Task.js:7 | every priority name validates back to that priority |
| `TaskModel.NewTask` | server/models/Task.js:3-11 | rejected exactly when a given status or priority is outside its list, with the status error first and the priority error otherwise; otherwise the status defaults to pending, the priority to medium and the share list to empty, and the owner, title, description and due date are kept |
| `TaskModel.NewTaskKeepsNames` | server/models/Task.js:6-7 | a stored task's status and priority print as the submitted names, or as "pending" and "medium" when none was submitted |
| `TaskModel.NewTaskDefaults` | server/models/Task.js:6-7 | with neither given, the task is created pending with medium priority |
| `TaskModel.Audience` | server/models/Task.js:9-10 | the users concerned are exactly the owner, if any, and the shared-with users; at most one more than the share list's length |
| `TaskModel.SharedSet` | server/models/Task.js:10 | the set of shared-with users has exactly the list's members and no more elements than the list |
| `TaskModel.OwnerUnique` | server/models/Task.js:9 | a task has at most one owner |

## Left out

- JWT signing and verification: `verify` is a parameter. A verified token always carries a subject id, so a token without an `id` claim is not modelled.
- Token expiry: `verify` is one function for a whole trace, so a token verifies the same way at every event. Tokens are issued with `expiresIn: '7d'` (server/routes/Authroutes.js:49), so in the real server a token can verify at the handshake and fail at a later `authenticate`. `Gateway.AuthenticateTwice` holds only under this abstraction; a per-event verification result would be needed to capture expiry.
- socket.io's own room named after each socket's id, which every connection joins automatically: the room table holds only the rooms server.js joins, so "changes no room" in `Gateway.ConnectionRooms` and `Gateway.ConnectNeverRejects` refers to those rooms only.
- The handshake's CORS, transport upgrades, ping timeouts, the rate limiting, sessions and the rest of the Express and MongoDB setup in server/server.js: framework and I/O plumbing.
- Gateway.LeaveAll: removing a closed connection from its rooms is socket.io's behaviour, not server.js's; it is an assumption of the trace model.
- Logging: the console output of every handler. `SocketServer.OnDisconnect` keeps its log line only because the line is the handler's one effect.
- The notification publisher that broadcasts to `user_<id>` rooms is not part of this model. `Gateway.Targets` is the read-only query that publisher would use.
- Ids are unique for a process lifetime. The trace model ignores a `Connect` for an id already open and any message for an id not open, because socket.io never delivers those.
- The socket.io client's reconnection backoff: the effect only passes the constants 5, 1000 and 5000, and the library does the timing.
- The socket.io client's own `disconnect` event, fired synchronously inside `socket.disconnect()`: its handler would assign the values the effect and cleanup assign right afterwards.
- SocketContext.SocketProvider.DependenciesChanged: React's scheduling is reduced to "the previous cleanup, if registered, runs before the effect". State setters are modelled as immediate assignments, not batched re-renders.
- The `authentication_error` handler of the client (SocketContext.jsx:97-99) only logs, so the model has no method for it.
- Emitted payloads are strings: the consumer's `emit` data is opaque.
- The request interceptor's error path and the response interceptor's success path (api.js:20-22, 27) pass their argument through unchanged.
- `window.open` for the OAuth URLs and the redirect's page load: only the URL and the `href` assignment are modelled.
- axios joining the base URL with the request paths, query-parameter encoding, timeouts and credentials.
- TaskModel.NewTask: when both status and priority are invalid, it reports only the status error, whereas Mongoose collects both. An explicit `null` for status or priority, and Mongoose's type casting, are not modelled.
- Mongoose `timestamps`, `ref` population and `ObjectId` formats: user references are strings.
- server/config/Passport.js, server/routes/Authroutes.js, client/src/components/TaskList.jsx and client/src/components/OAuthButton.jsx: OAuth strategies, database glue, file uploads and UI rendering.
