/**
 * The WebSocket relay server: the handshake gate that admits a connection
 * and attaches its `userId`, the per-room member sets, the relay of shape
 * and chat events to every room member except the sender, and the records
 * it persists after relaying.
 *
 * The server never inspects a shape payload; its type is the parameter `P`.
 * What the server does is recorded as a trace of `Action`s, so that the
 * order "relay, then persist" is part of the state.
 */
module Relay {
  import opened Wrappers
  import Jwt

  type ConnId = int
  type RoomId = int

  /** `socket.handshake.query.token`: absent, one string, or a repeated parameter. */
  datatype TokenParam = NoToken | OneToken(s: string) | ManyTokens(values: seq<string>)

  const TokenMissing: string := "Unauthorized: token missing"
  const InvalidToken: string := "Unauthorized: invalid token"

  /**
   * The `io.use` middleware: a token that is not a string is refused as
   * missing, a token `jwt.verify` rejects is refused as invalid, and an
   * accepted token yields the payload's `id` (absent for a string payload).
   */
  function Gate(q: TokenParam, verify: Jwt.Verifier): (r: Result<Option<int>, string>)
    ensures !q.OneToken? ==> r == Err(TokenMissing)
    ensures q.OneToken? && verify(q.s).None? ==> r == Err(InvalidToken)
    ensures r.Ok? <==> q.OneToken? && verify(q.s).Some?
    ensures r.Ok? ==> r.value == Jwt.IdOf(verify(q.s).value)
  {
    match q
    case OneToken(token) =>
      (match verify(token)
       case Some(decoded) => Ok(Jwt.IdOf(decoded))
       case None => Err(InvalidToken))
    case _ => Err(TokenMissing)
  }

  /** The members of `room` (none for a room nobody has joined). */
  function Members(rooms: map<RoomId, set<ConnId>>, room: RoomId): set<ConnId> {
    if room in rooms then rooms[room] else {}
  }

  /** `socket.join(room)`. */
  function JoinRoom(rooms: map<RoomId, set<ConnId>>, c: ConnId, room: RoomId): (r: map<RoomId, set<ConnId>>)
    ensures Members(r, room) == Members(rooms, room) + {c}
    ensures forall other :: other != room ==> Members(r, other) == Members(rooms, other)
  {
    rooms[room := Members(rooms, room) + {c}]
  }

  /** `socket.leave(room)`. */
  function LeaveRoom(rooms: map<RoomId, set<ConnId>>, c: ConnId, room: RoomId): (r: map<RoomId, set<ConnId>>)
    ensures Members(r, room) == Members(rooms, room) - {c}
    ensures forall other :: other != room ==> Members(r, other) == Members(rooms, other)
  {
    rooms[room := Members(rooms, room) - {c}]
  }

  /** A disconnected socket is removed from every room it was in. */
  function LeaveAll(rooms: map<RoomId, set<ConnId>>, c: ConnId): (r: map<RoomId, set<ConnId>>)
    ensures forall room :: Members(r, room) == Members(rooms, room) - {c}
  {
    map room | room in rooms :: rooms[room] - {c}
  }

  /** `socket.to(room)`: every member of the room except the sender, whether or not the sender is a member. */
  function Recipients(rooms: map<RoomId, set<ConnId>>, room: RoomId, sender: ConnId): (r: set<ConnId>)
    ensures sender !in r
    ensures forall c :: c in r <==> c in Members(rooms, room) && c != sender
  {
    Members(rooms, room) - {sender}
  }

  /** A connection that joins a room receives every later event sent to it by anyone else. */
  lemma JoinedReceives(rooms: map<RoomId, set<ConnId>>, c: ConnId, room: RoomId, sender: ConnId)
    requires c != sender
    ensures c in Recipients(JoinRoom(rooms, c, room), room, sender)
  {
  }

  /** Joining a room one was not in and leaving it again restores every room's members. */
  lemma JoinLeaveRestores(rooms: map<RoomId, set<ConnId>>, c: ConnId, room: RoomId)
    requires c !in Members(rooms, room)
    ensures forall other :: Members(LeaveRoom(JoinRoom(rooms, c, room), c, room), other) == Members(rooms, other)
  {
    assert Members(rooms, room) + {c} - {c} == Members(rooms, room);
  }

  /** Joining twice is joining once. */
  lemma JoinIdempotent(rooms: map<RoomId, set<ConnId>>, c: ConnId, room: RoomId)
    ensures JoinRoom(JoinRoom(rooms, c, room), c, room) == JoinRoom(rooms, c, room)
  {
    assert Members(rooms, room) + {c} + {c} == Members(rooms, room) + {c};
  }

  /** After leaving a room, or disconnecting, a connection receives nothing sent to that room. */
  lemma LeftReceivesNothing(rooms: map<RoomId, set<ConnId>>, c: ConnId, room: RoomId, sender: ConnId)
    ensures c !in Recipients(LeaveRoom(rooms, c, room), room, sender)
    ensures c !in Recipients(LeaveAll(rooms, c), room, sender)
  {
  }

  /** The events the server sends to other connections. */
  datatype Event<P> =
    | ShapeClearEvent(payload: P)
    | ShapeRemoveEvent(payload: P)
    | ShapeUpdateEvent(payload: P)
    | ShapeCreatedEvent(data: P)
    | ChatEvent(roomId: RoomId, message: P)

  /** The rows the server writes to the database. */
  datatype Row<P> =
    | ShapeRow(roomId: RoomId, userId: Option<int>, typeName: P, data: P)
    | ChatRow(roomId: RoomId, userId: Option<int>, message: P)

  /** One observable step of the server: a relay to a set of connections, or a stored row. */
  datatype Action<P> = Relayed(room: RoomId, to: set<ConnId>, event: Event<P>) | Persisted(row: Row<P>)

  /** The three shape events relayed with their payload unchanged. */
  datatype RelayKind = Clear | Remove | Update

  /** The event a relayed shape payload is sent as. */
  function RelayEvent<P>(kind: RelayKind, payload: P): (r: Event<P>)
    ensures kind == Clear <==> r.ShapeClearEvent?
    ensures kind == Remove <==> r.ShapeRemoveEvent?
    ensures kind == Update <==> r.ShapeUpdateEvent?
    ensures !r.ShapeCreatedEvent? && !r.ChatEvent? && r.payload == payload
  {
    match kind
    case Clear => ShapeClearEvent(payload)
    case Remove => ShapeRemoveEvent(payload)
    case Update => ShapeUpdateEvent(payload)
  }

  /** The `message` event's payload, by its `type` field. */
  datatype Message<P> = JoinRoomMsg(room: RoomId) | LeaveRoomMsg(room: RoomId) | ChatMsg(room: RoomId, text: P) | OtherMsg

  /**
   * The server process: the accepted connections and the `userId` attached
   * to each, the room member sets, and the trace of relays and stored rows.
   */
  class Server<P> {
    var connected: set<ConnId>
    var userOf: map<ConnId, Option<int>>
    var rooms: map<RoomId, set<ConnId>>
    var trace: seq<Action<P>>

    ghost predicate Valid()
      reads this
    {
      userOf.Keys == connected
    }

    constructor ()
      ensures Valid()
      ensures connected == {} && rooms == map[] && trace == []
    {
      connected := {};
      userOf := map[];
      rooms := map[];
      trace := [];
    }

    /**
     * A connection attempt through the `io.use` gate: on success the
     * connection is accepted with the decoded `id` attached; on failure it is
     * refused with the gate's message and nothing is recorded.
     */
    method Connect(c: ConnId, q: TokenParam, verify: Jwt.Verifier) returns (r: Result<Option<int>, string>)
      requires Valid() && c !in connected
      modifies this`connected, this`userOf
      ensures Valid()
      ensures r == Gate(q, verify)
      ensures r.Ok? ==> connected == old(connected) + {c} && userOf == old(userOf)[c := r.value]
      ensures r.Err? ==> connected == old(connected) && userOf == old(userOf)
    {
      if !q.OneToken? {
        return Err(TokenMissing);
      }
      var decoded := verify(q.s);
      if decoded.None? {
        return Err(InvalidToken);
      }
      r := Ok(Jwt.IdOf(decoded.value));
      userOf := userOf[c := r.value];
      connected := connected + {c};
    }

    /** `disconnect`: the socket leaves every room; the handler itself only logs. */
    method Disconnect(c: ConnId)
      requires Valid() && c in connected
      modifies this`connected, this`userOf, this`rooms
      ensures Valid()
      ensures connected == old(connected) - {c} && userOf == old(userOf) - {c}
      ensures rooms == LeaveAll(old(rooms), c)
    {
      connected := connected - {c};
      userOf := userOf - {c};
      rooms := LeaveAll(rooms, c);
    }

    /** `room:join`: joins unconditionally, with no admission check and no acknowledgement. */
    method RoomJoin(c: ConnId, room: RoomId)
      requires c in connected
      modifies this`rooms
      ensures rooms == JoinRoom(old(rooms), c, room)
    {
      rooms := JoinRoom(rooms, c, room);
    }

    /** `room:leave`. */
    method RoomLeave(c: ConnId, room: RoomId)
      requires c in connected
      modifies this`rooms
      ensures rooms == LeaveRoom(old(rooms), c, room)
    {
      rooms := LeaveRoom(rooms, c, room);
    }

    /**
     * `shape:clear`, `shape:remove`, `shape:update`: the payload is relayed
     * unchanged to the room's other members; the sender's own membership is
     * not checked and nothing is stored.
     */
    method RelayShape(c: ConnId, kind: RelayKind, room: RoomId, payload: P)
      requires c in connected
      modifies this`trace
      ensures trace == old(trace) + [Relayed(room, Recipients(rooms, room, c), RelayEvent(kind, payload))]
    {
      trace := trace + [Relayed(room, Recipients(rooms, room, c), RelayEvent(kind, payload))];
    }

    /**
     * `shape:create`: `data` is relayed as `shape:created` to the room's
     * other members first, and then the row `{roomId, userId, type, data}` is
     * stored with the sender's attached `userId`. `stored` says whether the
     * database write succeeds; a failed write leaves the relay in place and
     * is reported to no one.
     */
    method ShapeCreate(c: ConnId, room: RoomId, typeName: P, data: P, stored: bool)
      requires Valid() && c in connected
      modifies this`trace
      ensures trace == old(trace) + [Relayed(room, Recipients(rooms, room, c), ShapeCreatedEvent(data))]
                      + (if stored then [Persisted(ShapeRow(room, userOf[c], typeName, data))] else [])
    {
      trace := trace + [Relayed(room, Recipients(rooms, room, c), ShapeCreatedEvent(data))];
      if stored {
        trace := trace + [Persisted(ShapeRow(room, userOf[c], typeName, data))];
      }
    }

    /**
     * `message`: `join_room` and `leave_room` change membership like
     * `room:join` and `room:leave`; `chat` relays `{type: "chat", roomId,
     * message}` to the other members and then stores the message with the
     * sender's `userId`; any other type does nothing.
     */
    method OnMessage(c: ConnId, m: Message<P>, stored: bool)
      requires Valid() && c in connected
      modifies this`rooms, this`trace
      ensures m.JoinRoomMsg? ==> rooms == JoinRoom(old(rooms), c, m.room) && trace == old(trace)
      ensures m.LeaveRoomMsg? ==> rooms == LeaveRoom(old(rooms), c, m.room) && trace == old(trace)
      ensures m.ChatMsg? ==>
        (rooms == old(rooms) &&
         trace == old(trace) + [Relayed(m.room, Recipients(rooms, m.room, c), ChatEvent(m.room, m.text))]
                  + (if stored then [Persisted(ChatRow(m.room, userOf[c], m.text))] else []))
      ensures m.OtherMsg? ==> rooms == old(rooms) && trace == old(trace)
    {
      match m
      case JoinRoomMsg(room) =>
        rooms := JoinRoom(rooms, c, room);
      case LeaveRoomMsg(room) =>
        rooms := LeaveRoom(rooms, c, room);
      case ChatMsg(room, text) =>
        trace := trace + [Relayed(room, Recipients(rooms, room, c), ChatEvent(room, text))];
        if stored {
          trace := trace + [Persisted(ChatRow(room, userOf[c], text))];
        }
      case OtherMsg =>
    }
  }

  /**
   * In a `shape:create` step the relay comes first and does not depend on
   * the write: with or without a stored row, the first new action is the
   * relay, and a stored row carries the sender's attached `userId`.
   */
  lemma RelayBeforePersist<P>(before: seq<Action<P>>, after: seq<Action<P>>, rooms: map<RoomId, set<ConnId>>,
                              userOf: map<ConnId, Option<int>>, c: ConnId, room: RoomId, typeName: P, data: P, stored: bool)
    requires c in userOf
    requires after == before + [Relayed(room, Recipients(rooms, room, c), ShapeCreatedEvent(data))]
                      + (if stored then [Persisted(ShapeRow(room, userOf[c], typeName, data))] else [])
    ensures |after| == |before| + (if stored then 2 else 1)
    ensures after[|before|] == Relayed(room, Members(rooms, room) - {c}, ShapeCreatedEvent(data))
    ensures stored ==> after[|before| + 1].row.userId == userOf[c]
  {
  }
}
