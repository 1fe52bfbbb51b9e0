/** Whole runs of the relay: any sequence of open, message and close events, each
    handled to completion before the next (the single event loop). */
module Traces {
  import opened Protocol
  import opened Properties

  datatype Event =
    | Opened(conn: ConnId, param: Option<string>, env: Env)
    | Received(conn: ConnId, data: Inbound, env: Env)
    | Closed(conn: ConnId, env: Env)

  function Step(s: State, e: Event): State {
    match e
    case Opened(conn, param, env) => OpenStep(s, conn, param, env)
    case Received(conn, data, env) => MessageStep(s, conn, data, env)
    case Closed(conn, env) => CloseStep(s, conn, env)
  }

  /** The state after handling `events` in order, starting from `s`. */
  function Run(s: State, events: seq<Event>): State
    decreases |events|
  {
    if events == [] then s
    else Step(Run(s, events[..|events| - 1]), events[|events| - 1])
  }

  /** The transport opens each connection once: no `open` arrives for a connection
      that is still registered. */
  ghost predicate Admissible(s: State, events: seq<Event>)
    decreases |events|
  {
    events == [] ||
    (var prefix := events[..|events| - 1];
     var e := events[|events| - 1];
     Admissible(s, prefix) && (e.Opened? ==> e.conn !in Run(s, prefix).clients))
  }

  /** `conn`'s last open or close event in `events` is an open. */
  predicate Live(events: seq<Event>, conn: ConnId)
    decreases |events|
  {
    if events == [] then false
    else
      var e := events[|events| - 1];
      if e.conn == conn && e.Opened? then true
      else if e.conn == conn && e.Closed? then false
      else Live(events[..|events| - 1], conn)
  }

  /** Every event keeps the registry invariant, given the transport's guarantee. */
  lemma StepKeepsInv(s: State, e: Event)
    requires Inv(s)
    requires e.Opened? ==> e.conn !in s.clients
    ensures Inv(Step(s, e))
  {
    match e
    case Opened(conn, param, env) => OpenRegisters(s, conn, param, env);
    case Received(conn, data, env) => MessageKeepsInv(s, conn, data, env);
    case Closed(conn, env) => CloseKeepsInv(s, conn, env);
  }

  /** Membership invariant over any run: at every quiescent point each registered
      connection is in exactly the room its record names, and in no other. */
  lemma {:induction false} RunKeepsInv(s: State, events: seq<Event>)
    requires Inv(s) && Admissible(s, events)
    ensures Inv(Run(s, events))
    decreases |events|
  {
    if events != [] {
      var prefix := events[..|events| - 1];
      RunKeepsInv(s, prefix);
      StepKeepsInv(Run(s, prefix), events[|events| - 1]);
    }
  }

  /** A connection has a record exactly when its open has been handled and its close
      has not; closed connections are in no room. */
  lemma {:induction false} RegisteredIffLive(events: seq<Event>, conn: ConnId)
    requires Admissible(INITIAL, events)
    ensures conn in Run(INITIAL, events).clients <==> Live(events, conn)
    ensures !Live(events, conn) ==>
              forall r | r in Run(INITIAL, events).rooms :: conn !in Run(INITIAL, events).rooms[r]
    decreases |events|
  {
    RunKeepsInv(INITIAL, events);
    if events != [] {
      var prefix := events[..|events| - 1];
      var e := events[|events| - 1];
      var before := Run(INITIAL, prefix);
      RegisteredIffLive(prefix, conn);
      RunKeepsInv(INITIAL, prefix);
      match e
      case Opened(c, param, env) =>
        OpenRegisters(before, c, param, env);
      case Received(c, data, env) =>
        if c in before.clients && data.kind == MESSAGE_TYPE && Truthy(data.content) {
          ChatReachesRoom(before, c, data, env);
        }
      case Closed(c, env) =>
        if c in before.clients {
          CloseDeregisters(before, c, env);
        }
    }
  }

  /** One event deletes no room and takes back no send. */
  lemma StepOnlyAdds(s: State, e: Event)
    ensures s.rooms.Keys <= Step(s, e).rooms.Keys
    ensures |s.outbox| <= |Step(s, e).outbox| && Step(s, e).outbox[..|s.outbox|] == s.outbox
  {
  }

  /** Rooms are never deleted: every room name ever created stays addressable. */
  lemma {:induction false} RoomsNeverDeleted(s: State, events: seq<Event>)
    ensures s.rooms.Keys <= Run(s, events).rooms.Keys
    decreases |events|
  {
    if events != [] {
      var prefix := events[..|events| - 1];
      var before := Run(s, prefix);
      RoomsNeverDeleted(s, prefix);
      StepOnlyAdds(before, events[|events| - 1]);
    }
  }

  /** The outbox only grows: a send, once made, is never taken back. */
  lemma {:induction false} OutboxOnlyGrows(s: State, events: seq<Event>)
    ensures |s.outbox| <= |Run(s, events).outbox|
    ensures Run(s, events).outbox[..|s.outbox|] == s.outbox
    decreases |events|
  {
    if events != [] {
      var prefix := events[..|events| - 1];
      var before := Run(s, prefix);
      OutboxOnlyGrows(s, prefix);
      StepOnlyAdds(before, events[|events| - 1]);
    }
  }

  /** A client's room is fixed when it joins: no event other than its own `open`
      changes the room of a registered connection. */
  lemma StepKeepsRoom(s: State, e: Event, conn: ConnId)
    requires conn in s.clients && !(e.Opened? && e.conn == conn)
    ensures conn in Step(s, e).clients ==> Step(s, e).clients[conn].room == s.clients[conn].room
  {
  }

  /** Joining a room that was never created succeeds and leaves it with exactly the
      joiner as member. */
  lemma JoinNewRoom(s: State, conn: ConnId, name: string, env: Env)
    requires Inv(s) && conn !in s.clients && name != "" && name !in s.rooms
    ensures var s' := Step(s, Opened(conn, Some(name), env));
            name in s'.rooms && s'.rooms[name] == [conn] && s'.clients[conn].room == name
  {
  }
}
