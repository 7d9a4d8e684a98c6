# WebSocket signalling relay: router and client registry

A model of the relay server of a small WebRTC signalling application. The
relay keeps a registry of connected clients and reacts to three events: a
connection opening, a frame arriving on a connection, and a connection
closing. Each handler runs to completion before the next event. Two versions
exist and both are modelled:

- `server.ts` (module `Relay`) keeps `users` (id to display name), `clients`
  (id to socket) and a single `broadcaster` slot. A parsed frame is routed by
  the first of: an explicit `to` (relayed to `clients[to]`, or to the
  broadcaster for `to: 'broadcaster'`), `type: 'username'` (rename),
  `type: 'message'` (chat fan-out to every socket), `type: 'join'` (the
  join/broadcaster handshake), and otherwise a relay to every OPEN socket.
- `server.js` (module `DraftRelay`) is the earlier draft with `users` only,
  no `to` routing and no broadcaster; its join reply counts `users` keys.

Each server is modelled twice over in one module: a value `State` with pure
functions `AfterConnect`, `AfterMessage`, `AfterClosing` and `AfterClose`
saying what one event does, with lemmas about them; and a class `Server`
holding the same fields, updated in place by methods `OnConnect`,
`OnMessage`, `OnClosing` and `OnClose`, each proved to produce exactly the
state the corresponding function gives and to keep the invariant `Inv`. The
fan-out `forEach` loops are the methods `Sockets.SendEach` and
`Sockets.SendEachOpen`, proved against the functions `SendAll` and
`SendOpen`.

Shared modules:
- `Json`: JavaScript values after `JSON.parse`, and the coercions the
  handlers rely on: truthiness (`if (data.to)`, `username || "unknown"`),
  conversion to a property key (`clients[data.to]`, `delete users[username]`)
  and loose `==` with the handlers' string literals.
- `Envelopes`: inbound `Frame` (`Malformed` or a parsed object) and the
  objects the relay serialises: the error reply, `{...data, from: id}`, the
  chat envelope, the join reply and the broadcaster's join notice.
  `JSON.stringify` leaves out undefined properties, so a chat frame without
  `message` is sent without one.
- `Sockets`: `wss.clients` as a duplicate-free sequence in insertion order
  (the iteration order of a JavaScript `Set`), a socket's OPEN state as a
  set, every `send` call as an `outbox` entry, and the fan-out functions
  with their counting lemmas.
- `Events`: the events both servers react to, one handler run at a time:
  connect (with its new id), a frame, a socket leaving readyState OPEN, and
  close.
- `Lobby`: `generateRandomLobby`, which is the same code in both files and is
  never called.

Modelling choices:
- A socket is a number handle; every accepted connection gets a new one.
  Each connection's closure variables `id` and `username` are the maps
  `idOf` and `nameOf`, keyed by socket (for `server.js`, `idOf` is also
  `ws.id`).
- The `ws` server drops a socket from `wss.clients` before the `close`
  handler runs, so `AfterClose` removes it from `conns` too.
- `OnClosing` is the transport event of a socket leaving readyState OPEN
  while it is still in `wss.clients`. The source has no handler for it, but
  the `readyState === OPEN` filter of the default relay reads this state.
- The outbox records every `send` call the handlers make, also to a socket
  that is closing or closed (the broadcaster slot can hold one). What the
  socket then does with the data is transport behaviour.
- The error reply is `{type: 'error', error: {}}`: a `SyntaxError` has no
  enumerable properties, so `JSON.stringify` gives it as the empty object.

What the code does, as the model states it:
- There are no rooms: the server keeps one registry for every connection.
- `message` and the default relay go to every socket on the server.
- The default relay also reaches the sender when its socket is OPEN,
  although the comment at server.ts:95 says the sender is left out.
- `join` replies to the sender. In `server.ts`, when `wss.clients` holds
  exactly one socket the sender takes the broadcaster slot (overwriting it)
  and no notice is sent; otherwise the broadcaster, if the slot is set, is
  sent a join notice.
- A `to` that names no registered client is dropped without a reply.

## Model

| member | source | states |
|---|---|---|
| Relay.Server.OnConnect | server.ts:20-26 | connect adds the socket and registers `users[id] = id`, `clients[id] = ws`; the state is exactly `AfterConnect` and the invariant holds |
| Relay.Server.OnMessage | server.ts:29-102 | the in-place handler produces exactly the state `AfterMessage` describes, and keeps the invariant |
| Relay.Server.SendDirect | server.ts:44-58 | the `to` branch in place: the target socket is the broadcaster slot for `to == 'broadcaster'`, else `clients[to]`, and gets one send if present; as `AfterDirect` |
| Relay.Server.SetName | server.ts:60-63 | the rename in place, as `AfterRename` |
| Relay.Server.SendChat | server.ts:64-72 | the chat fan-out in place, as `AfterChat` |
| Relay.Server.AnswerJoin | server.ts:74-92 | the join reply and broadcaster handshake in place, as `AfterJoin` |
| Relay.Server.SendRelay | server.ts:94-101 | the OPEN-filtered relay in place, as `AfterRelayAll` |
| Relay.RouteOf | server.ts:44-101 | the decision chain takes the `to` branch exactly when `to` is truthy, and then relays to that `to` |
| Relay.Server.OnClosing | server.ts:97 | a socket leaving OPEN is no longer in the open set; nothing else changes |
| Relay.Server.OnClose | server.ts:104-107 | close removes the socket, `users[username]` and `clients[id]`, as `AfterClose`, keeping the invariant |
| Relay.Server.constructor | server.ts:6-8 | the registry starts empty, with no broadcaster |
| Relay.ConnectInv | server.ts:22-26 | a fresh socket and id keep the registry consistent: ids distinct, `clients` exactly the live ids, `users` keys among issued ids |
| Relay.MessageInv | server.ts:29-102 | every branch of the message handler keeps the invariant |
| Relay.MessageEffect | server.ts:29-102 | the message handler only appends sends, sets the sender's own `users[id]` and name (every other client's entry and name unchanged, no entry removed), or sets the broadcaster to the sender |
| Relay.CloseInv | server.ts:104-107 | close keeps the invariant: the other live sockets stay registered under their ids |
| Relay.ClosingInv | server.ts:97 | a socket leaving OPEN keeps the invariant |
| Relay.InitialInv | server.ts:6-8 | the empty registry is consistent |
| Relay.StepKeepsInv | server.ts:20-108 | any one event keeps the invariant, only appends sends, and never empties a set broadcaster slot |
| Relay.RunKeepsInv | server.ts:20-108 | along any run of events the invariant holds, the outbox only grows, and a set broadcaster slot is never cleared |
| Relay.MalformedRepliesError | server.ts:31-42 | an unparsable frame sends exactly one `{type:'error'}` to the sender and changes nothing else |
| Relay.ToTakesPrecedence | server.ts:44-58 | a frame with a truthy `to` is only relayed whatever its type: at most one send, of the frame with `from`, no rename, no fan-out |
| Relay.DirectRelay | server.ts:51-57 | `to` naming a registered id sends exactly one copy to that id's socket, with `from` overwritten by the sender's id; nothing else changes |
| Relay.RelayToBroadcaster | server.ts:47-49 | `to: 'broadcaster'` sends to the socket in the broadcaster slot |
| Relay.UnknownTargetDropped | server.ts:54-57 | an unregistered target, or `to: 'broadcaster'` with an empty slot, sends nothing and changes nothing |
| Relay.RenameSendsNothing | server.ts:60-63 | `username` sets `users[id]` and the sender's current name and sends nothing |
| Relay.ChatReachesEveryone | server.ts:64-72 | `message` sends one chat envelope to every live socket, the sender included, with `sender` the current name or "unknown" when it is falsy |
| Relay.JoinHandshake | server.ts:74-92 | `join` replies to the sender with position N = the size of `wss.clients` and broadcaster = (N == 1); the first client becomes broadcaster, otherwise only the broadcaster is notified |
| Relay.RelayToOpen | server.ts:94-100 | any other frame without `to` goes, tagged `from`, exactly once to each OPEN socket, the sender included when open |
| Envelopes.SenderName | server.ts:70 | `username` or else "unknown" (also server.js:58) is the current name when truthy, and exactly the text "unknown" otherwise |
| Relay.ConnectRegisters | server.ts:22-26 | connect sets `users[id] = id` and `clients[id] = ws` for an id not yet present, and sends nothing |
| Relay.CloseForgets | server.ts:104-107 | close removes `clients[id]` and `users[username]` by name, sends nothing and leaves the broadcaster slot as it was |
| Relay.RenamedEntryOutlivesClose | server.ts:105 | after a rename, close leaves the client's `users[id]` entry in place |
| Relay.CloseDropsNamesakeEntry | server.ts:105 | a client named after another live client's id deletes that client's `users` entry when it closes |
| Relay.BroadcasterOutlivesClose | server.ts:104-107 | after the broadcaster closes the slot still holds its socket and `to: 'broadcaster'` still sends to it |
| DraftRelay.Server.OnConnect | server.js:18-24 | connect sets `ws.id = id` and `users[id] = id`; the state is exactly `AfterConnect` |
| DraftRelay.Server.OnMessage | server.js:33-80 | the in-place handler produces exactly the state `AfterMessage` describes, and keeps the invariant |
| DraftRelay.Server.SetName | server.js:48-51 | the rename in place, as `AfterRename` |
| DraftRelay.Server.SendChat | server.js:52-61 | the chat fan-out in place, as `AfterChat` |
| DraftRelay.Server.AnswerJoin | server.js:62-70 | the single join reply in place, as `AfterJoin` |
| DraftRelay.Server.SendRelay | server.js:71-79 | the OPEN-filtered relay in place, as `AfterRelayAll` |
| DraftRelay.Server.OnClosing | server.js:75 | a socket leaving OPEN is no longer in the open set |
| DraftRelay.Server.OnClose | server.js:82-84 | close removes the socket and `users[username]`, as `AfterClose` |
| DraftRelay.Server.constructor | server.js:6 | `users` starts empty |
| DraftRelay.ConnectInv | server.js:20-24 | a fresh socket and id keep ids distinct and `users` keys among issued ids |
| DraftRelay.MessageInv | server.js:33-80 | every branch of the message handler keeps the invariant |
| DraftRelay.MessageEffect | server.js:33-80 | the message handler only appends sends or sets the sender's own `users[id]` and name; every other client's entry and name is unchanged and no entry is removed |
| DraftRelay.CloseInv | server.js:82-84 | close keeps the invariant |
| DraftRelay.ClosingInv | server.js:75 | a socket leaving OPEN keeps the invariant |
| DraftRelay.InitialInv | server.js:6 | the empty registry is consistent |
| DraftRelay.StepKeepsInv | server.js:18-85 | any one event keeps the invariant and only appends sends |
| DraftRelay.RunKeepsInv | server.js:18-85 | along any run of events the invariant holds and the outbox only grows |
| DraftRelay.MalformedRepliesError | server.js:35-46 | an unparsable frame sends exactly one error envelope to the sender; `users` is unchanged |
| DraftRelay.ConnectRegisters | server.js:20-24 | connect registers `users[id] = id` and the socket's id, and sends nothing |
| DraftRelay.RenameSendsNothing | server.js:48-51 | `username` updates `users[id]` and the current name and sends nothing |
| DraftRelay.ChatReachesEveryone | server.js:52-61 | `message` sends one chat envelope with `sender` the current name or else "unknown" to every live socket, the sender included |
| DraftRelay.JoinRepliesToSenderOnly | server.js:62-70 | `join` sends exactly one reply, to the sender, with position = number of `users` keys and broadcaster = (position == 1) |
| DraftRelay.RelayToOpen | server.js:71-79 | any other type goes, tagged `from`, once to each OPEN socket, the sender included; `users` unchanged |
| DraftRelay.CloseForgets | server.js:82-84 | close deletes `users[username]` by name and sends nothing |
| DraftRelay.StaleEntryCountedInJoin | server.js:66 | after rename and close, the departed client's `users[id]` stays and a later `join` position still counts it |
| Sockets.SendEach | server.ts:66-72 | the `forEach` send loop appends exactly `SendAll` of the live sockets |
| Sockets.SendEachOpen | server.ts:96-100 | the `forEach` loop with the OPEN test appends exactly `SendOpen` |
| Sockets.SendAllShape | server.js:54-60 | the fan-out has one send per live socket, in `wss.clients` order, each carrying the same envelope |
| Sockets.CountSendAll | server.ts:66-72 | with distinct sockets each live socket gets exactly one copy and no other socket any |
| Sockets.FanOutToAll | server.js:54-60 | over distinct sockets the fan-out reaches exactly the live sockets, once each, all with the same envelope |
| Sockets.FanOutToOpen | server.js:74-78 | over distinct sockets the filtered fan-out reaches exactly the open ones, once each, all with the same envelope |
| Sockets.SendOpenShape | server.js:74-78 | the OPEN-filtered fan-out reaches exactly the open live sockets, in order, each with the same envelope |
| Sockets.CountSendOpen | server.ts:96-100 | each open live socket gets exactly one copy, every other socket none |
| Envelopes.Spread | server.ts:56 | `{...data, from: id}` carries every property of the frame except `from`, and `from` is the sender's id |
| Envelopes.Chat | server.ts:67-71 | the chat envelope has `type`, `sender` and, when defined, `message` |
| Envelopes.ChatFields | server.js:55-59 | the chat envelope reads back as `type: 'message'`, the given sender and the given message |
| Envelopes.Put | server.js:55-59 | an undefined property is dropped from a serialised envelope; other properties are kept |
| Json.NatText | server.ts:51 | a numeric `to` used as a key becomes its decimal text: digits with no leading zero whose value is the number (JavaScript's text only below 2^53, see Left out) |
| Lobby.GenerateRandomLobby | server.ts:10-18 | the loop builds the concatenation of the five drawn characters; with draws in [0,36) the result has 5 characters, each the drawn letter or digit |
| Lobby.LobbyTextInRange | server.js:8-16 | with every draw in range, the text has one character per draw, each in 'a'..'z' or '0'..'9' |
| Lobby.CharAt | server.js:13 | `charAt(i)` is exactly the alphabet's character at `i` when `i` is in range, and the empty string otherwise |

## Left out

- The `ws` server itself, ports, sockets' I/O and `console.log`: a `send` call is an outbox entry, readyState OPEN is membership of the open set, and delivery is not modelled.
- `uuid()`: the new id is a parameter, required to differ from every id already issued (`Fresh`).
- `Math.random` and `Math.floor`: floating point; `generateRandomLobby` takes its five draws as input.
- `JSON.parse` and `JSON.stringify`: library serialisation. Frames are given parsed, envelopes are property maps; the order of properties in the serialised text is not modelled.
- JSON numbers are integers only; fractional numbers, NaN and their text are not modelled.
- Json.NatText: gives JavaScript's `String(n)` only for integers with |n| < 2^53. JavaScript numbers are doubles: a larger parsed integer is rounded, and `String` gives the shortest digits that read back to the same double (2^60 gives "1152921504606847000"), switching to exponent form from 10^21 ("1e+21"). The model always gives the exact digits. Routing is unaffected, since no issued id is numeric.
- A frame that parses to something other than an object (null, which makes `data.to` throw, or a string or array, whose spread copies indices) is not modelled: `Frame` carries an object.
- Property keys inherited from `Object.prototype` (`to: "constructor"`, `"__proto__"`, `"toString"`) are not modelled: `clients[to]` is treated as an own-property lookup. In the source such a key reads a truthy object that is not a socket, so `toSocket.send(...)` at server.ts:56 throws a TypeError outside the `try`, which ends the process; the model instead finds no target and drops the frame.
- A parsed object with its own `toString` property, used as a key or compared with `==` (a `to`, a `type` or a username of that shape, directly or inside an array): JavaScript's ToPrimitive finds no callable `toString` and throws a TypeError outside the `try`, which ends the process. The model gives such an object the text `[object Object]` and carries on, so this crash path is not modelled.
- Json.LooseEqualsWord: states `==` only against the handlers' literals, which are words; general loose equality is not modelled.
- The commented-out first-client broadcaster code of server.js:27-31 is not modelled, since it never runs.
- Rooms, room ids, `start`/`end`, and the client-side offer/answer/ICE negotiation are not part of these server files; src/routes/[room]/webSocketFunctions.ts and src/routes/[room]/mediaFunctions.ts are not part of this model.
