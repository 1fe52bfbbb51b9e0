# Chat relay: connection registry and room fan-out

This project models the core of a small WebSocket chat relay. Clients connect on `/ws`,
which always puts them in room `"general"`. They can also connect on `/ws/:room`, which puts
them in the room named by the path, or in `"general"` when the path parameter is empty.
Once connected, a client may rename itself or send chat lines. The server fans each chat
line out to every open connection in the sender's room.

The server keeps two maps, both changed in place:

- `rooms` maps a room name to the set of clients in that room.
- `clients` maps a connection to its record, which holds a username and a room.

The model has five modules:

- `Sets` (sets.dfy) models the JavaScript `Set` as a duplicate-free sequence in insertion
  order. It provides `add` and `delete`.
- `Protocol` (protocol.dfy) defines the data model and the registry invariant `Inv`. It
  also holds one pure step function per operation: `BroadcastStep`, `OpenStep`,
  `MessageStep` and `CloseStep`.
- `Server` (server.dfy) defines the class `Relay`. Its fields `rooms`, `clients` and
  `outbox` are updated in place by `GetRoom`, `Broadcast`, `Open`, `OnMessage` and `Close`.
  Each method is proved to produce exactly the state its step function describes. The
  `broadcast` loop is a `while` loop with invariants.
- `Properties` (properties.dfy) holds what each handler promises, as lemmas about the step
  functions.
- `Traces` (traces.dfy) covers whole runs: any admissible sequence of open, message and
  close events (no open for a connection that is still registered) keeps the invariant. It also proves that a connection is registered exactly while its
  last open has not been followed by a close.

The two `.ws` routes have identical handlers, so they are modelled as one handler set. Each
handler takes the route's optional room parameter: `/ws` passes `None`, and `/ws/:room`
passes the path parameter. The outside world is one `Env` value per event, with three parts:

- `isOpen` stands for `readyState === 1`.
- `now` stands for `new Date().toISOString()`.
- `serialize` stands for `JSON.stringify`.

Each `ws.send(data)` call is recorded as a `Delivery(to, data)` appended to `outbox`.

## Model

| member | source | states |
|---|---|---|
| `Sets.Add` | src/index.ts:204 | `set.add`: the result holds exactly the old members plus the new one; existing members keep their order, a new member goes last, the size grows by one only if it was absent, and no duplicate is introduced |
| `Sets.Delete` | src/index.ts:241 | `set.delete`: the result holds exactly the old members other than the removed one; removing a non-member changes nothing; on a duplicate-free set a member's removal shrinks it by exactly one |
| `Sets.DeleteKeepsOrder` | src/index.ts:241 | on a duplicate-free set, `delete` removes exactly the slot holding the member and keeps the others in insertion order, so later broadcasts visit them in the same order |
| `Protocol.RoomFor` | src/index.ts:261 | the room joined is the path parameter when present and non-empty, otherwise `"general"` (which is also what `/ws` uses, src/index.ts:202) |
| `Protocol.EnsureRoom` | src/index.ts:41-47 | `getRoom`: the room map afterwards has exactly one more key at most, the looked-up name; an existing room and every other room are returned unchanged, an absent one is created empty |
| `Protocol.Recipients` | src/index.ts:53-58 | the connections the broadcast loop sends to are exactly the room members that are not excluded and are open; there are at most as many as members, and none twice when the room has no duplicates |
| `Server.Relay.constructor` | src/index.ts:38-39 | the server starts with no rooms, no clients and nothing sent, which satisfies the registry invariant |
| `Server.Relay.GetRoom` | src/index.ts:41-47 | `getRoom` updates `rooms` as `EnsureRoom` says and returns that room's members |
| `Server.Relay.Broadcast` | src/index.ts:49-60 | the loop appends exactly the fan-out to the outbox, `sentCount` equals the number of recipients, the only other change is the lazily created room, and the registry invariant is kept |
| `Server.Relay.Open` | src/index.ts:260-271 | the `open` handler performs `OpenStep` in place and keeps the registry invariant for a connection that is not already registered |
| `Server.Relay.OnMessage` | src/index.ts:273-297 | the `message` handler performs `MessageStep` in place and keeps the registry invariant |
| `Server.Relay.Close` | src/index.ts:298-311 | the `close` handler performs `CloseStep` in place and keeps the registry invariant |
| `Properties.EnsureRoomIdempotent` | src/index.ts:41-47 | looking a room up twice leaves the same room map as looking it up once |
| `Properties.BroadcastFanout` | src/index.ts:49-58 | a broadcast changes no client record and no existing room, keeps earlier sends, sends the same serialised payload in every send, sends to a connection exactly when it is a non-excluded open member, sends at most one per member, and sends to nobody twice |
| `Properties.BroadcastKeepsInv` | src/index.ts:49-50 | the lazily created room of a broadcast does not break the registry invariant |
| `Properties.RegisterKeepsInv` | src/index.ts:262-264 | adding a new connection's record to `clients` and to its room keeps the registry invariant |
| `Properties.OpenRegisters` | src/index.ts:201-211 | `open` of a new connection records it as `"Anonymous"` in the selected room and in no other, leaves every other room and record unchanged, and sends only the join notice, to exactly the open members of that room, the joiner included when it is open |
| `Properties.MessageFromUnknownIgnored` | src/index.ts:214-220 | a frame from a connection with no record changes no state and sends nothing |
| `Properties.RenameChangesOnlyUsername` | src/index.ts:222-225 | a `"username"` frame with a non-empty name changes only that client's username: its room, all other records, the rooms and the outbox stay the same |
| `Properties.ChatReachesRoom` | src/index.ts:226-233 | a `"message"` frame with non-empty content sends the chat, under the client's current username, to exactly the open members of the sender's room, the sender included when it is open, and changes no room and no record |
| `Properties.OtherFramesIgnored` | src/index.ts:234-236 | a frame of any other type, or a known type whose field is missing or empty, changes no state and sends nothing |
| `Properties.MessageKeepsInv` | src/index.ts:213-237 | every `message` event keeps the registry invariant |
| `Properties.CloseDeregisters` | src/index.ts:238-251 | `close` of a registered connection removes it from `clients` and from every room, deletes no room, changes no other room, and sends only `"<username> left the room"`, to exactly the remaining open members of its room, never to the leaver |
| `Properties.CloseUnknownIgnored` | src/index.ts:239-240 | `close` of a connection with no record changes nothing and sends nothing |
| `Properties.CloseIdempotent` | src/index.ts:298-311 | a second `close` of the same connection is a no-op, so only the first one broadcasts a leave notice |
| `Properties.CloseKeepsInv` | src/index.ts:238-251 | every `close` event keeps the registry invariant |
| `Properties.RenameVisibleInChat` | src/index.ts:282-293 | after a rename to a name, every send of the client's next chat carries the payload built with that name, and it reaches exactly the open members of its room |
| `Traces.StepKeepsInv` | src/index.ts:201-251 | each open, message or close event keeps the registry invariant, provided an open never arrives for a connection that is still registered |
| `Traces.RunKeepsInv` | src/index.ts:201-251 | over any admissible sequence of events, each registered connection is a member of exactly the room its record names and of no other room |
| `Traces.RegisteredIffLive` | src/index.ts:201-251 | from the initial state, a connection has a record exactly when its last open or close event was an open; a connection that is not live is in no room |
| `Traces.StepOnlyAdds` | src/index.ts:241-242 | no event deletes a room or takes back a send |
| `Traces.RoomsNeverDeleted` | src/index.ts:298-311 | every room that exists at some point still exists after any later sequence of events |
| `Traces.OutboxOnlyGrows` | src/index.ts:49-58 | over any sequence of events, earlier sends stay a prefix of the outbox |
| `Traces.StepKeepsRoom` | src/index.ts:222-225 | only a connection's own `open` can change the room of its record: renames, chats and other connections' events leave it fixed |
| `Traces.JoinNewRoom` | src/index.ts:260-264 | joining a room that was never created succeeds and leaves that room with the joiner as its only member |

## Left out

- Elysia setup, routing, `.listen`, and the `/health` and `/` endpoints (src/index.ts:187-192, 314-316) are framework plumbing.
- The embedded HTML/JavaScript page (src/index.ts:63-184) is browser UI.
- The `t.Object` body schema (src/index.ts:196-200, 255-259) is enforced by a foreign library. Frames that fail it never reach the handler, so the model starts from a validated `Inbound` with an optional `username` and `content`.
- The `log` utility and every log call (src/index.ts:22-35 and throughout) only write to the console.
- Timestamps (`new Date().toISOString()`), `JSON.stringify` and `readyState === 1` are inputs: `Env.now`, `Env.serialize` and `Env.isOpen`. `ws.send` is an append to `outbox`.
- `send` never throws in the model. The source has no `try` around `send`, so a throwing `send` would end the loop early. A per-recipient failure report and a success/attempt pair are not in the code either: the code counts only the sends it makes, and the model follows the code.
- `sentCount` is only logged by the source (src/index.ts:59). `Server.Relay.Broadcast` returns it so that its value can be stated.
- Environment and port parsing (src/index.ts:4-5) are process configuration.
- Concurrency is not modelled. Handlers run to completion, one at a time, on a single event loop, and a run is a sequence of events.
- Object identity: in the source, a room's `Set` holds the same `Client` object that `clients` holds. The model keys room membership by connection and keeps the record by value in `clients`. This is equivalent because every `Client` has its own connection.
- Server.Relay.Open: the model does not capture an `open` arriving for a connection that is still registered. The transport opens each socket once. The source would then leave a second `Client` object for the same socket in the room's `Set`, while the model merges the two when both are in the same room. Every invariant lemma assumes that an open is for a new connection.
