/** The connection registry, room fan-out and per-connection protocol of the chat
    relay, as pure functions over a value of the whole server state. The class in
    module Server performs the same steps in place and is proved equal to these. */
module Protocol {
  import opened Sets

  datatype Option<+T> = None | Some(value: T)

  /** Identity of one transport connection (the raw socket object used as key). */
  type ConnId = nat

  /** The serialised text handed to `send`. */
  type Payload = string

  /** Per-connection session state; the connection itself is the key it is stored under. */
  datatype Client = Client(username: string, room: string)

  /** An inbound frame after schema validation: `type` is required, the others optional. */
  datatype Inbound = Inbound(kind: string, username: Option<string>, content: Option<string>)

  /** An outbound frame; `kind` is the wire field `type`. */
  datatype Outbound = Outbound(kind: string, username: string, content: string, timestamp: string)

  /** One `send` call: `data` was written to connection `to`. */
  datatype Delivery = Delivery(to: ConnId, data: Payload)

  /** What a handler sees of the outside world while it runs: which connections are
      open (`readyState === 1`), the clock's ISO-8601 reading, and the JSON encoder. */
  datatype Env = Env(isOpen: ConnId -> bool, now: string, serialize: Outbound -> Payload)

  /** The two module-level maps, plus every `send` performed so far, in order. */
  datatype State = State(rooms: map<string, seq<ConnId>>, clients: map<ConnId, Client>, outbox: seq<Delivery>)

  const GENERAL := "general"
  const ANONYMOUS := "Anonymous"
  const SYSTEM := "System"
  const MESSAGE_TYPE := "message"
  const USERNAME_TYPE := "username"
  const JOIN_NOTICE := "A user joined the room"

  /** The state the process starts in: no rooms, no clients, nothing sent. */
  const INITIAL := State(map[], map[], [])

  function LeaveNotice(username: string): string {
    username + " left the room"
  }

  /** JavaScript truthiness of an optional string field: present and not empty. */
  predicate Truthy(field: Option<string>) {
    field.Some? && field.value != ""
  }

  /** The room a connection joins: the route's `:room` parameter, or "general" when
      the route has none (`/ws`) or it is empty. */
  function RoomFor(param: Option<string>): (room: string)
    ensures room != ""
    ensures Truthy(param) ==> room == param.value
    ensures !Truthy(param) ==> room == GENERAL
  {
    if Truthy(param) then param.value else GENERAL
  }

  /** `getRoom`: the room map after looking `name` up, creating it empty if absent. */
  function EnsureRoom(rooms: map<string, seq<ConnId>>, name: string): (r: map<string, seq<ConnId>>)
    ensures r.Keys == rooms.Keys + {name}
    ensures name in rooms ==> r == rooms
    ensures name !in rooms ==> r[name] == []
    ensures forall n | n in rooms :: r[n] == rooms[n]
  {
    if name in rooms then rooms else rooms[name := []]
  }

  /** A member receives a broadcast when it is not the excluded connection and is open. */
  predicate Eligible(c: ConnId, exclude: Option<ConnId>, isOpen: ConnId -> bool) {
    exclude != Some(c) && isOpen(c)
  }

  /** The members a broadcast sends to, in the order the loop visits them. */
  function Recipients(members: seq<ConnId>, exclude: Option<ConnId>, isOpen: ConnId -> bool): (r: seq<ConnId>)
    ensures forall c :: c in r <==> c in members && Eligible(c, exclude, isOpen)
    ensures |r| <= |members|
    ensures NoDup(members) ==> NoDup(r)
    decreases |members|
  {
    if members == [] then []
    else
      var last := members[|members| - 1];
      var rest := Recipients(members[..|members| - 1], exclude, isOpen);
      if Eligible(last, exclude, isOpen) then
        assert NoDup(members) ==> last !in members[..|members| - 1];
        rest + [last]
      else rest
  }

  /** The `send` calls of one broadcast: the same payload to each recipient in turn. */
  function Fanout(recipients: seq<ConnId>, data: Payload): (r: seq<Delivery>)
    ensures |r| == |recipients|
    ensures forall i | 0 <= i < |r| :: r[i].to == recipients[i] && r[i].data == data
  {
    seq(|recipients|, i requires 0 <= i < |recipients| => Delivery(recipients[i], data))
  }

  lemma FanoutAppend(recipients: seq<ConnId>, c: ConnId, data: Payload)
    ensures Fanout(recipients + [c], data) == Fanout(recipients, data) + [Delivery(c, data)]
  {
  }

  /** The registry invariant: rooms are duplicate-free, and a registered connection is a
      member of exactly the room its record names and of no other. */
  ghost predicate Inv(s: State) {
    && (forall r | r in s.rooms :: NoDup(s.rooms[r]))
    && (forall c | c in s.clients :: s.clients[c].room in s.rooms && c in s.rooms[s.clients[c].room])
    && (forall r, c | r in s.rooms && c in s.rooms[r] :: c in s.clients && s.clients[c].room == r)
  }

  function JoinMessage(now: string): Outbound {
    Outbound(MESSAGE_TYPE, SYSTEM, JOIN_NOTICE, now)
  }

  function ChatMessage(username: string, content: string, now: string): Outbound {
    Outbound(MESSAGE_TYPE, username, content, now)
  }

  function LeaveMessage(username: string, now: string): Outbound {
    Outbound(MESSAGE_TYPE, SYSTEM, LeaveNotice(username), now)
  }

  /** `broadcast(room, message, exclude)`. */
  function BroadcastStep(s: State, room: string, message: Outbound, exclude: Option<ConnId>, env: Env): State {
    var rooms := EnsureRoom(s.rooms, room);
    var data := env.serialize(message);
    s.(rooms := rooms, outbox := s.outbox + Fanout(Recipients(rooms[room], exclude, env.isOpen), data))
  }

  /** The registry half of `open`: the new record goes into `clients` and `room`. */
  function Register(s: State, conn: ConnId, room: string): State {
    var rooms := EnsureRoom(s.rooms, room);
    s.(clients := s.clients[conn := Client(ANONYMOUS, room)], rooms := rooms[room := Add(rooms[room], conn)])
  }

  /** The `open` handler of either route; `param` is the route's `:room` parameter. */
  function OpenStep(s: State, conn: ConnId, param: Option<string>, env: Env): State {
    var room := RoomFor(param);
    BroadcastStep(Register(s, conn, room), room, JoinMessage(env.now), None, env)
  }

  /** The `message` handler of either route. */
  function MessageStep(s: State, conn: ConnId, data: Inbound, env: Env): State {
    if conn !in s.clients then s
    else
      var client := s.clients[conn];
      if data.kind == USERNAME_TYPE && Truthy(data.username) then
        s.(clients := s.clients[conn := client.(username := data.username.value)])
      else if data.kind == MESSAGE_TYPE && Truthy(data.content) then
        BroadcastStep(s, client.room, ChatMessage(client.username, data.content.value, env.now), None, env)
      else s
  }

  /** The registry half of `close`: the record leaves its room and `clients`. */
  function Deregister(s: State, conn: ConnId, room: string): State {
    var rooms := EnsureRoom(s.rooms, room);
    s.(rooms := rooms[room := Delete(rooms[room], conn)], clients := s.clients - {conn})
  }

  /** The `close` handler of either route. */
  function CloseStep(s: State, conn: ConnId, env: Env): State {
    if conn !in s.clients then s
    else
      var client := s.clients[conn];
      BroadcastStep(Deregister(s, conn, client.room), client.room, LeaveMessage(client.username, env.now), None, env)
  }
}
