# Session registry of a multi-instance messaging HTTP server

The server keeps one messaging client per instance id in two in-memory
dictionaries: `clients` (the client object) and `qrCodes` (the latest pairing
QR code, rendered as a data URL). This project models the code that changes
or reads them:

- `initializeClient`, which creates and stores a client;
- the `qr`, `ready`, `auth_failure` and `disconnected` handlers each client carries;
- the decisions of the four endpoints (`POST /instance`, `GET /qr/:instanceId`,
  `POST /send/:instanceId`, `POST /logout/:instanceId`), which run in a fixed
  order: API key, then fields, then lookup, then action;
- the rule that turns a phone number into a chat id.

Layout:

- `wrappers.dfy` (`Wrappers`): `Option`.
- `js.dfy` (`Js`): JavaScript truthiness of a string field and `String.prototype.includes`.
  `includes` is proved equal to a positional definition of an occurrence.
- `api.dfy` (`Api`): the static key guard, the chat-id rule and the shapes of the replies.
- `sessions.dfy` (`Sessions`): the dictionaries as a value (`Entries`) and the
  lifecycle events with their effect (`Apply`, `Remove`). `Run` applies a trace of
  events. Lemmas about traces say which event decides an id's entries and
  where a served QR code comes from.
- `server.dfy` (`Server`): class `Registry`, holding the two dictionaries as fields.
  Its methods change the fields as the handlers do. The event handlers and
  `Logout` state their new state through `Apply` or `Remove` from `Sessions`;
  `InitializeClient` and `CreateInstance` state it outright. The read-only
  endpoints state their replies and the library calls they reach outright.
- `plain_object_lookup.dfy` (`PlainObjectLookup`): the `/send`, `/qr` and `/logout` lookups as written. See "## Findings".

External effects are parameters or results:

- The QR renderer's outcome is an `Option<string>` given to `OnQr`.
- The generated UUID is a parameter of `CreateInstance`.
- Whether `initialize()`, `sendMessage()` or `logout()` rejects is a parameter.
- The library calls a request reaches (`initialize()` on `/instance`, `sendMessage()`
  on `/send`, `logout()` and `initialize()` on `/logout`) are returned as a sequence of `ClientCall`.

When an awaited call rejects outside a `try` block, the handler writes no JSON
reply. The model returns `NoReply` there, with the dictionaries as the handler
left them. This happens for `initialize()` on `/instance` and for `logout()` on
`/logout`. Nothing handles the rejected handler promise, so what follows depends
on versions the model does not fix. Node 15 or later ends the process on an
unhandled rejection. Express 5 instead answers 500 through its error handler.

In these places the model follows the code:

- A pairing QR code can outlive its client. After a logout, the same client
  object is initialised again without being stored back into `clients`. Its `qr`
  handler can then fill `qrCodes` for an id that has no client
  (`Sessions.QrAfterRemovalIsOrphaned`). So `qrCodes`' keys are not always keys
  of `clients`, and the model does not claim that they are.
- `/qr` tests the stored value for truthiness. An empty stored string is answered
  400, like a missing one.
- `/instance` answers 200 with `{instanceId, apiKey}`. It ignores
  `initializeClient`'s result, so it also answers 200 when the id already had a
  client ("Client already exists"). The generator's value is not assumed new.
- An unknown id on `/send` or `/logout` is answered 400. The messages are
  "Client not initialized" and "Client not found".

## Model

| member | source | states |
|---|---|---|
| `Js.IncludesIff` | server.js:102 | `includes` holds exactly when the searched text occurs at some index of the number |
| `Js.IncludesAppended` | server.js:102 | any string with the suffix appended includes the suffix |
| `Api.Authorized` | server.js:65 | the key guard lets a request through exactly when the key is present and equal to the static key; absent and empty keys are refused |
| `Api.Unauthorized` | server.js:65-66 | the refusal every endpoint gives is a 401 error reply |
| `Api.ChatId` | server.js:102 | the chat id always contains `@c.us`; it equals the number exactly when the number already contains `@c.us`; otherwise it is the number with `@c.us` appended |
| `Api.ChatIdIdempotent` | server.js:102 | normalising twice gives the same chat id as normalising once |
| `Api.ChatIdKeepsNumber` | server.js:102 | the number is a prefix of its chat id, which is at most five characters longer |
| `Sessions.Client.constructor` | server.js:22-28 | a new client carries the instance id as its auth client id |
| `Sessions.Remove` | server.js:47-48 | deleting an id leaves it in neither dictionary, changes no other id, and is a no-op for an absent id |
| `Sessions.Apply` | server.js:30-55 | an event of client `id` changes no other id and never adds or replaces a client; a successful `qr` rendering becomes that id's QR code and leaves `clients` alone; a failed rendering and `ready` change nothing; `auth_failure` and `disconnected` leave `id` in neither dictionary |
| `Sessions.RemovalIdempotent` | server.js:45-55 | a second `auth_failure` or `disconnected` changes nothing, and one for an id without entries changes nothing |
| `Sessions.RemovalEventsAgree` | server.js:45-55 | `auth_failure` and `disconnected` have the same effect, which is the deletion of both entries |
| `Sessions.QrOverwrites` | server.js:30-38 | a second successful rendering replaces the first; the earlier QR code can no longer be retrieved |
| `Sessions.QrAfterRemovalIsOrphaned` | server.js:117-122 | after a logout removes an id, a `qr` event of the re-initialised client stores a QR code for an id with no client |
| `Sessions.Run` | server.js:30-55 | handling any sequence of lifecycle events only ever removes client entries, never adds or replaces one |
| `Sessions.RunKeepsOtherIds` | server.js:30-55 | events of other clients leave an id's client and QR code exactly as they were |
| `Sessions.RunLastEventDecides` | server.js:30-55 | if an id's last event is a successful rendering, that rendering is its QR code; if it is `auth_failure` or `disconnected`, the id has neither entry |
| `Sessions.RunQrProvenance` | server.js:30-38 | every QR code present after a trace was already there or was rendered by a `qr` event of that same id |
| `Server.Registry.constructor` | server.js:13-14 | both dictionaries start empty |
| `Server.Registry.InitializeClient` | server.js:17-60 | an existing id answers "Client already exists" and changes nothing. A new id gets a fresh client, built with that id, stored before `initialize()` is awaited. No other id and no QR code changes. The result is "Client initialized", or a rejection when `initialize()` rejects |
| `Server.Registry.OnQr` | server.js:30-39 | the new state is `Apply` of a `qr` event with the rendering's outcome |
| `Server.Registry.OnReady` | server.js:41-43 | the new state is `Apply` of `ready`, which is the old state |
| `Server.Registry.OnAuthFailure` | server.js:45-49 | the new state is `Apply` of `auth_failure` |
| `Server.Registry.OnDisconnected` | server.js:51-55 | the new state is `Apply` of `disconnected` |
| `Server.Registry.CreateInstance` | server.js:63-71 | a bad key gets 401, changes nothing and calls nothing. Otherwise the generated id ends up holding a client and nothing else changes; `initialize()` is called on the new client exactly when one was built. The reply echoes the id and the key with 200, except that no reply is written when a new client's `initialize()` rejects |
| `Server.Registry.GetQr` | server.js:74-85 | a bad key gets 401. Otherwise the reply is 200 with the stored QR code exactly when the id has a non-empty one, and 400 "QR code not available" when it does not. Nothing changes |
| `Server.Registry.Send` | server.js:88-108 | checks run in order: 401 for a bad key, then 400 for a missing or empty number or message, then 400 for an id without a client. Only past all three is `sendMessage` called, once, on that id's client, with the normalised chat id and the message. A rejection becomes 500 with its message, otherwise 200. Nothing changes |
| `Server.Registry.Logout` | server.js:111-127 | a bad key gets 401, and an id without a client gets 400 "Client not found"; neither changes anything nor calls the library. A known client is logged out. If that rejects, there is no reply and no change. Otherwise both entries of the id are deleted, the same client is initialised again, and the reply is 200 |
| `PlainObjectLookup.PropertyGet` | server.js:97-99 | a lookup on a plain object finds the stored value as an own entry exactly when the key is stored, and finds nothing only when the key is also not an inherited member name |
| `PlainObjectLookup.SendAsWritten` | server.js:88-108 | as written, an authorised and complete request for an id without a client gets 400 only when the id is not an inherited member name |
| `PlainObjectLookup.InheritedIdAnswers500` | server.js:97-107 | as written, `/send/toString` with the right key, a number and a message, and no such session, is answered 500 |
| `PlainObjectLookup.GetQrAsWritten` | server.js:74-85 | as written, an authorised request for an id without a QR code gets 400 only when the id is not an inherited member name; an inherited name gets 200 with `{"qr":{}}` for `__proto__` and `{}` for the others |
| `PlainObjectLookup.InheritedIdGetsEmptyQr` | server.js:80-81 | as written, `/qr/toString` with the right key and no such QR code is answered 200 with `{}` |
| `PlainObjectLookup.LogoutAsWritten` | server.js:111-127 | as written, an authorised request for an id without a client changes nothing, and gets 400 only when the id is not an inherited member name |
| `PlainObjectLookup.InheritedIdLogoutNoReply` | server.js:117-119 | as written, `/logout/toString` with the right key and no such session gets no reply and changes nothing |

## Findings

| source | as written | input that shows it | evidently intended | confidence | as-written member | corrected member |
|---|---|---|---|---|---|---|
| server.js:97-100 | `clients[instanceId]` on a plain object also yields members inherited from `Object.prototype`. These pass the `!client` test, and the later `client.sendMessage(...)` throws a TypeError that the `catch` turns into 500 | `POST /send/toString` with the right key, `number` "15551234567", `message` "hi", and no session named `toString` | 400 "Client not initialized", as for any other id without a client | high; not executed | `PlainObjectLookup.SendAsWritten`, `PlainObjectLookup.InheritedIdAnswers500` | `Server.Registry.Send` |
| server.js:80-84 | `qrCodes[instanceId]` also yields an inherited function, which is truthy; `res.json({ qr: f })` drops the function and answers 200 with `{}` | `GET /qr/toString` with the right key and no QR code stored under `toString` | 400 "QR code not available" | high; not executed | `PlainObjectLookup.GetQrAsWritten`, `PlainObjectLookup.InheritedIdGetsEmptyQr` | `Server.Registry.GetQr` |
| server.js:117-119 | `clients[instanceId]` also yields an inherited function, which passes `if (client)`; `client.logout()` then throws a TypeError outside any `try`, so no reply is written, and with Node 15 or later the unhandled rejection can end the server process | `POST /logout/toString` with the right key and no session named `toString` | 400 "Client not found" | high; not executed | `PlainObjectLookup.LogoutAsWritten`, `PlainObjectLookup.InheritedIdLogoutNoReply` | `Server.Registry.Logout` |

## Left out

- Express wiring (routing, JSON and CORS middleware, `listen`, the port) is HTTP plumbing. Each endpoint is a method taking the request fields it reads.
- The messaging library (`Client`, `LocalAuth`, the browser options) is outside the model. What `initialize`, `sendMessage` and `logout` do inside it is also outside. Each is an opaque call that resolves or rejects by a parameter, and the calls a request reaches are returned.
- QR rendering (`qrcode.toDataURL`) is the `Option<string>` given to `OnQr`. The rendered format is not modelled.
- UUID generation is the `newId` parameter of `CreateInstance`. Freshness is not assumed: `initializeClient` tests presence, but `/instance` ignores its result.
- What happens after a handler's promise rejects is not modelled. The model only says that no JSON reply is written (`NoReply`) and the dictionaries keep the state the handler left. With Node 15 or later the unhandled rejection ends the process, so every later request fails; with Express 5 the request gets a 500 from the error handler. Neither version is fixed here.
- Server.Registry.Logout: the unawaited `initialize()` after a logout is recorded as a call. Its outcome and the events it later produces are not tied to the request. Those events are the ordinary `OnQr`, `OnReady`, `OnAuthFailure` and `OnDisconnected` of the same id.
- Interleavings between awaits, and cancellation, are not modelled: each handler runs as one step. Console logging is also left out.
- Request fields that are JSON values other than strings are not modelled: each field is an optional string. For example, a numeric `number` makes `number.includes` throw and gives 500.
- Strings are sequences of Unicode scalar values, while JavaScript strings are UTF-16 code units, so an id, number or message holding a lone surrogate (possible through a JSON `\ud800` escape) cannot be represented. The search for the ASCII `@c.us` is not affected.
- Server.Registry.InitializeClient: the presence test is on own entries only. The ids it receives come from the UUID generator, and no UUID is the name of a member inherited from `Object.prototype`, so the inherited-member lookup of the findings cannot arise here.
- A `sendMessage` rejection whose `error.message` is undefined is not modelled; the model carries the rejection's message as a string.
