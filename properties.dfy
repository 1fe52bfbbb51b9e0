/** What each handler promises, stated over the step functions of module Protocol. */
module Properties {
  import opened Sets
  import opened Protocol

  /** The sends a step appended to the outbox. */
  function Appended(before: State, after: State): seq<Delivery>
    requires |before.outbox| <= |after.outbox|
  {
    after.outbox[|before.outbox|..]
  }

  // ---------------------------------------------------------------- getRoom

  /** Looking a room up twice is the same as looking it up once. */
  lemma EnsureRoomIdempotent(rooms: map<string, seq<ConnId>>, name: string)
    ensures EnsureRoom(EnsureRoom(rooms, name), name) == EnsureRoom(rooms, name)
  {
  }

  // -------------------------------------------------------------- broadcast

  /** A broadcast changes no client record and no existing room, may only create the
      addressed room empty, and sends the one serialised payload to exactly the open,
      non-excluded members, each once, at most one send per member. */
  lemma BroadcastFanout(s: State, room: string, message: Outbound, exclude: Option<ConnId>, env: Env)
    ensures var s' := BroadcastStep(s, room, message, exclude, env);
            && s'.clients == s.clients
            && s'.rooms == EnsureRoom(s.rooms, room)
            && |s.outbox| <= |s'.outbox| && s'.outbox[..|s.outbox|] == s.outbox
    ensures var s' := BroadcastStep(s, room, message, exclude, env);
            var members := EnsureRoom(s.rooms, room)[room];
            var sent := s'.outbox[|s.outbox|..];
            && |sent| <= |members|
            && (forall d | d in sent :: d.data == env.serialize(message))
            && (forall c :: Delivery(c, env.serialize(message)) in sent <==> c in members && Eligible(c, exclude, env.isOpen))
            && (NoDup(members) ==> forall i, j | 0 <= i < j < |sent| :: sent[i].to != sent[j].to)
  {
  }

  /** A broadcast keeps the registry invariant (it only ever adds an empty room). */
  lemma BroadcastKeepsInv(s: State, room: string, message: Outbound, exclude: Option<ConnId>, env: Env)
    requires Inv(s)
    ensures Inv(BroadcastStep(s, room, message, exclude, env))
  {
  }

  // ------------------------------------------------------------------- open

  /** Recording a connection that has no record yet keeps the registry invariant. */
  lemma RegisterKeepsInv(s: State, conn: ConnId, room: string)
    requires Inv(s) && conn !in s.clients
    ensures Inv(Register(s, conn, room))
  {
    var rooms := EnsureRoom(s.rooms, room);
    assert conn !in rooms[room];
    var s' := Register(s, conn, room);
    forall r, c | r in s'.rooms && c in s'.rooms[r]
      ensures c in s'.clients && s'.clients[c].room == r
    {
      if r != room {
        assert c in s.rooms[r];
      }
    }
  }

  /** `open` of a new connection registers it as "Anonymous" in the room the route
      selects and in no other, leaves every other room and record alone, and delivers
      the join notice to every open member of that room, the joiner included. */
  lemma OpenRegisters(s: State, conn: ConnId, param: Option<string>, env: Env)
    requires Inv(s) && conn !in s.clients
    ensures var s' := OpenStep(s, conn, param, env);
            var room := RoomFor(param);
            && Inv(s')
            && s'.clients == s.clients[conn := Client(ANONYMOUS, room)]
            && s'.rooms.Keys == s.rooms.Keys + {room}
            && (forall r | r in s.rooms && r != room :: s'.rooms[r] == s.rooms[r])
            && (forall c :: c in s'.rooms[room] <==> c == conn || (room in s.rooms && c in s.rooms[room]))
    ensures var s' := OpenStep(s, conn, param, env);
            var room := RoomFor(param);
            var join := env.serialize(JoinMessage(env.now));
            && |s.outbox| <= |s'.outbox| && s'.outbox[..|s.outbox|] == s.outbox
            && (forall c :: Delivery(c, join) in Appended(s, s') <==> c in s'.rooms[room] && env.isOpen(c))
            && (forall d | d in Appended(s, s') :: d.data == join)
            && (env.isOpen(conn) ==> Delivery(conn, join) in Appended(s, s'))
  {
    var room := RoomFor(param);
    var joined := Register(s, conn, room);
    RegisterKeepsInv(s, conn, room);
    BroadcastFanout(joined, room, JoinMessage(env.now), None, env);
    BroadcastKeepsInv(joined, room, JoinMessage(env.now), None, env);
  }

  // ---------------------------------------------------------------- message

  /** A frame from a connection with no record changes nothing and sends nothing. */
  lemma MessageFromUnknownIgnored(s: State, conn: ConnId, data: Inbound, env: Env)
    requires conn !in s.clients
    ensures MessageStep(s, conn, data, env) == s
  {
  }

  /** A "username" frame with a non-empty name changes only that client's name: its room,
      every other record, the rooms and the outbox stay as they were. */
  lemma RenameChangesOnlyUsername(s: State, conn: ConnId, data: Inbound, env: Env)
    requires Inv(s) && conn in s.clients
    requires data.kind == USERNAME_TYPE && Truthy(data.username)
    ensures var s' := MessageStep(s, conn, data, env);
            && Inv(s')
            && s'.rooms == s.rooms && s'.outbox == s.outbox
            && s'.clients.Keys == s.clients.Keys
            && s'.clients[conn].username == data.username.value
            && s'.clients[conn].room == s.clients[conn].room
            && (forall c | c in s.clients && c != conn :: s'.clients[c] == s.clients[c])
  {
  }

  /** A "message" frame with non-empty content from a registered client sends the chat,
      under the client's current name, to every open member of its room, sender
      included, and changes no room and no record. */
  lemma ChatReachesRoom(s: State, conn: ConnId, data: Inbound, env: Env)
    requires Inv(s) && conn in s.clients
    requires data.kind == MESSAGE_TYPE && Truthy(data.content)
    ensures var s' := MessageStep(s, conn, data, env);
            var client := s.clients[conn];
            var chat := env.serialize(ChatMessage(client.username, data.content.value, env.now));
            && s'.rooms == s.rooms && s'.clients == s.clients
            && |s.outbox| <= |s'.outbox| && s'.outbox[..|s.outbox|] == s.outbox
            && (forall c :: Delivery(c, chat) in Appended(s, s') <==> c in s.rooms[client.room] && env.isOpen(c))
            && (forall d | d in Appended(s, s') :: d.data == chat)
            && (env.isOpen(conn) ==> Delivery(conn, chat) in Appended(s, s'))
  {
  }

  /** Any other frame (unknown type, or a known type whose field is missing or empty)
      changes nothing and sends nothing. */
  lemma OtherFramesIgnored(s: State, conn: ConnId, data: Inbound, env: Env)
    requires !(data.kind == USERNAME_TYPE && Truthy(data.username))
    requires !(data.kind == MESSAGE_TYPE && Truthy(data.content))
    ensures MessageStep(s, conn, data, env) == s
  {
  }

  /** Every `message` event keeps the registry invariant. */
  lemma MessageKeepsInv(s: State, conn: ConnId, data: Inbound, env: Env)
    requires Inv(s)
    ensures Inv(MessageStep(s, conn, data, env))
  {
  }

  // ------------------------------------------------------------------ close

  /** `close` of a registered connection removes it from its room and from the client
      map, deletes no room, and tells only the remaining open members of that room
      that "<username> left the room". */
  lemma CloseDeregisters(s: State, conn: ConnId, env: Env)
    requires Inv(s) && conn in s.clients
    ensures var s' := CloseStep(s, conn, env);
            var room := s.clients[conn].room;
            && Inv(s')
            && s'.clients == s.clients - {conn}
            && s'.rooms.Keys == s.rooms.Keys
            && (forall r | r in s'.rooms :: conn !in s'.rooms[r])
            && (forall r | r in s.rooms && r != room :: s'.rooms[r] == s.rooms[r])
            && (forall c :: c in s'.rooms[room] <==> c in s.rooms[room] && c != conn)
    ensures var s' := CloseStep(s, conn, env);
            var client := s.clients[conn];
            var notice := env.serialize(LeaveMessage(client.username, env.now));
            && |s.outbox| <= |s'.outbox| && s'.outbox[..|s.outbox|] == s.outbox
            && (forall c :: Delivery(c, notice) in Appended(s, s') <==>
                  c in s.rooms[client.room] && c != conn && env.isOpen(c))
            && (forall d | d in Appended(s, s') :: d.data == notice && d.to != conn)
  {
    var client := s.clients[conn];
    BroadcastFanout(Deregister(s, conn, client.room), client.room, LeaveMessage(client.username, env.now), None, env);
  }

  /** `close` of a connection with no record changes nothing and sends nothing. */
  lemma CloseUnknownIgnored(s: State, conn: ConnId, env: Env)
    requires conn !in s.clients
    ensures CloseStep(s, conn, env) == s
  {
  }

  /** A second `close` of the same connection is a no-op: only the first one sends a
      leave notice. */
  lemma CloseIdempotent(s: State, conn: ConnId, env: Env, env': Env)
    ensures CloseStep(CloseStep(s, conn, env), conn, env') == CloseStep(s, conn, env)
  {
  }

  /** Every `close` event keeps the registry invariant. */
  lemma CloseKeepsInv(s: State, conn: ConnId, env: Env)
    requires Inv(s)
    ensures Inv(CloseStep(s, conn, env))
  {
    if conn in s.clients {
      CloseDeregisters(s, conn, env);
    }
  }

  // -------------------------------------------------------------- scenarios

  /** After a rename to `name`, the client's next chat carries `name`, not the name it
      had before: every send of that chat holds the payload built with `name`. */
  lemma RenameVisibleInChat(s: State, conn: ConnId, name: string, content: string, env: Env, env': Env)
    requires Inv(s) && conn in s.clients && name != "" && content != ""
    ensures var renamed := MessageStep(s, conn, Inbound(USERNAME_TYPE, Some(name), None), env);
            var s' := MessageStep(renamed, conn, Inbound(MESSAGE_TYPE, None, Some(content)), env');
            var chat := env'.serialize(ChatMessage(name, content, env'.now));
            && s'.outbox[..|s.outbox|] == s.outbox
            && (forall c :: Delivery(c, chat) in Appended(s, s') <==>
                  c in s.rooms[s.clients[conn].room] && env'.isOpen(c))
            && (forall d | d in Appended(s, s') :: d.data == chat)
  {
  }
}
