/** The relay's module-level state and its handlers, updated in place. Both `.ws`
    routes share one handler set: `/ws` passes no room parameter, `/ws/:room` its
    path parameter. Every method is proved equal to its step in module Protocol. */
module Server {
  import opened Sets
  import opened Protocol
  import opened Properties

  class Relay {
    /** `rooms`: room name to its member set, in insertion order. */
    var rooms: map<string, seq<ConnId>>
    /** `clients`: connection to its session record. */
    var clients: map<ConnId, Client>
    /** Every `send` performed so far, in order. */
    var outbox: seq<Delivery>

    function Snapshot(): State
      reads this
    {
      State(rooms, clients, outbox)
    }

    ghost predicate Valid()
      reads this
    {
      Inv(Snapshot())
    }

    constructor ()
      ensures Snapshot() == INITIAL && Valid()
    {
      rooms, clients, outbox := map[], map[], [];
    }

    /** `getRoom`: returns the members of `name`, creating the room empty if it is new. */
    method GetRoom(name: string) returns (members: seq<ConnId>)
      modifies this`rooms
      ensures rooms == EnsureRoom(old(rooms), name)
      ensures members == rooms[name]
    {
      if name !in rooms {
        rooms := rooms[name := []];
      }
      members := rooms[name];
    }

    /** `broadcast`: serialises once, then sends to each open, non-excluded member and
        counts the sends. */
    method Broadcast(room: string, message: Outbound, exclude: Option<ConnId>, env: Env) returns (sentCount: nat)
      modifies this`rooms, this`outbox
      ensures Snapshot() == BroadcastStep(old(Snapshot()), room, message, exclude, env)
      ensures sentCount == |Recipients(rooms[room], exclude, env.isOpen)|
      ensures old(Valid()) ==> Valid()
    {
      var members := GetRoom(room);
      var data := env.serialize(message);
      sentCount := 0;
      var i := 0;
      while i < |members|
        invariant 0 <= i <= |members|
        invariant rooms == EnsureRoom(old(rooms), room) && members == rooms[room]
        invariant outbox == old(outbox) + Fanout(Recipients(members[..i], exclude, env.isOpen), data)
        invariant sentCount == |Recipients(members[..i], exclude, env.isOpen)|
      {
        var c := members[i];
        assert members[..i + 1][..i] == members[..i];
        ghost var sent := Recipients(members[..i], exclude, env.isOpen);
        if exclude != Some(c) && env.isOpen(c) {
          FanoutAppend(sent, c, data);
          outbox := outbox + [Delivery(c, data)];
          sentCount := sentCount + 1;
        }
        i := i + 1;
      }
      assert members[..i] == members;
      if old(Valid()) {
        BroadcastKeepsInv(old(Snapshot()), room, message, exclude, env);
      }
    }

    /** `open`: registers the connection as "Anonymous" in its room and announces it. */
    method Open(conn: ConnId, param: Option<string>, env: Env)
      modifies this
      ensures Snapshot() == OpenStep(old(Snapshot()), conn, param, env)
      ensures old(Valid()) && conn !in old(clients) ==> Valid()
    {
      var room := RoomFor(param);
      clients := clients[conn := Client(ANONYMOUS, room)];
      var members := GetRoom(room);
      rooms := rooms[room := Add(members, conn)];
      var _ := Broadcast(room, JoinMessage(env.now), None, env);
      if old(Valid()) && conn !in old(clients) {
        OpenRegisters(old(Snapshot()), conn, param, env);
      }
    }

    /** `message`: renames the sender, broadcasts its chat, or ignores the frame. */
    method OnMessage(conn: ConnId, data: Inbound, env: Env)
      modifies this
      ensures Snapshot() == MessageStep(old(Snapshot()), conn, data, env)
      ensures old(Valid()) ==> Valid()
    {
      if old(Valid()) {
        MessageKeepsInv(Snapshot(), conn, data, env);
      }
      if conn !in clients {
        return;
      }
      var client := clients[conn];
      if data.kind == USERNAME_TYPE && Truthy(data.username) {
        clients := clients[conn := client.(username := data.username.value)];
      } else if data.kind == MESSAGE_TYPE && Truthy(data.content) {
        var _ := Broadcast(client.room, ChatMessage(client.username, data.content.value, env.now), None, env);
      }
    }

    /** `close`: deregisters the connection and tells its room it left. */
    method Close(conn: ConnId, env: Env)
      modifies this
      ensures Snapshot() == CloseStep(old(Snapshot()), conn, env)
      ensures old(Valid()) ==> Valid()
    {
      if old(Valid()) {
        CloseKeepsInv(Snapshot(), conn, env);
      }
      if conn in clients {
        var client := clients[conn];
        var members := GetRoom(client.room);
        rooms := rooms[client.room := Delete(members, conn)];
        clients := clients - {conn};
        var _ := Broadcast(client.room, LeaveMessage(client.username, env.now), None, env);
      }
    }
  }
}
