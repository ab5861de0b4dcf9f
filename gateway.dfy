/** The server's real-time connection layer (server/server.js, lines 134-193):
    the handshake middleware, the `connection` handler and the per-socket
    `authenticate` and `disconnect` handlers, over a global room table that
    maps a room name to the ids of the connections that joined it.

    Token verification (`jwt.verify` with the server secret) is a parameter
    `verify` that yields the token's subject id, or `None` where the library
    throws.

    The file has two layers. The first is the behaviour of each handler as a
    function of its inputs, and a whole-gateway state driven by a trace of
    events, with the invariants proved over that trace. The second is the
    objects the handlers update in place (`Socket`, `Adapter`,
    `SocketServer`), whose methods are tied to those functions. */
module Gateway {
  import opened Wrappers

  type UserId = string
  type Token = string
  type ConnId = nat
  type Room = string
  type Rooms = map<Room, set<ConnId>>

  const RoomPrefix: string := "user_"
  const InvalidTokenMessage: string := "Invalid token"

  /** How a template literal prints `socket.userId`: a null id prints as "null". */
  function Printed(userId: Option<UserId>): string {
    if userId.Some? then userId.value else "null"
  }

  /** The personal room `user_${socket.userId}`. */
  function UserRoom(userId: Option<UserId>): Room {
    RoomPrefix + Printed(userId)
  }

  /** Because of the fixed prefix, distinct user ids name distinct rooms. */
  lemma UserRoomInjective(u: UserId, v: UserId)
    ensures UserRoom(Some(u)) == UserRoom(Some(v)) <==> u == v
  {
    if UserRoom(Some(u)) == UserRoom(Some(v)) {
      assert u == UserRoom(Some(u))[|RoomPrefix|..];
      assert v == UserRoom(Some(v))[|RoomPrefix|..];
    }
  }

  /** The read-only `targets(room)` query: who a broadcast to `room` reaches. */
  function Targets(rooms: Rooms, room: Room): (r: set<ConnId>)
    ensures room !in rooms ==> r == {}
    ensures room in rooms ==> r == rooms[room]
  {
    if room in rooms then rooms[room] else {}
  }

  /** `socket.join(room)`: adds one connection to one room, nothing else. */
  function Join(rooms: Rooms, room: Room, c: ConnId): (r: Rooms)
    ensures c in Targets(r, room)
    ensures forall q :: Targets(rooms, q) <= Targets(r, q)
    ensures forall q, d :: d in Targets(r, q) ==> d in Targets(rooms, q) || (q == room && d == c)
  {
    rooms[room := Targets(rooms, room) + {c}]
  }

  /** The per-socket fields `socket.userId` and `socket.authenticated`. */
  datatype Auth = Auth(userId: Option<UserId>, authenticated: bool)

  /** A socket before the middleware ran: both fields are `undefined`. */
  const Fresh: Auth := Auth(None, false)

  /** The state-machine invariant: authenticated exactly when a user id is set. */
  predicate Coherent(a: Auth) {
    a.authenticated <==> a.userId.Some?
  }

  /** An authenticated connection is a member of its own personal room. */
  predicate InOwnRoom(a: Auth, c: ConnId, rooms: Rooms) {
    a.authenticated ==> c in Targets(rooms, UserRoom(a.userId))
  }

  // ---------------------------------------------------------------------
  // Handlers as functions
  // ---------------------------------------------------------------------

  /** The `io.use` middleware (lines 140-160): a missing or empty handshake
      token and a token that fails verification both leave the socket
      unauthenticated; a verified token authenticates it as its subject. */
  function HandshakeAuth(verify: Token -> Option<UserId>, token: Option<Token>): (a: Auth)
    ensures Coherent(a)
    ensures a.authenticated <==> Truthy(token) && verify(token.value).Some?
    ensures a.authenticated ==> a.userId == verify(token.value)
  {
    if !Truthy(token) then Auth(None, false)
    else
      match verify(token.value)
      case Some(id) => Auth(Some(id), true)
      case None => Auth(None, false)
  }

  /** The `connection` handler (lines 164-170): an authenticated socket joins
      its personal room; an unauthenticated one joins nothing. */
  function ConnectionRooms(a: Auth, c: ConnId, rooms: Rooms): (r: Rooms)
    ensures InOwnRoom(a, c, r)
    ensures !a.authenticated ==> r == rooms
    ensures forall q :: Targets(rooms, q) <= Targets(r, q)
    ensures forall q, d :: d != c ==> (d in Targets(r, q) <==> d in Targets(rooms, q))
    ensures forall q, d :: d in Targets(r, q) ==>
      d in Targets(rooms, q) || (a.authenticated && q == UserRoom(a.userId) && d == c)
  {
    if a.authenticated then Join(rooms, UserRoom(a.userId), c) else rooms
  }

  /** What the server sends back on the socket after an `authenticate` message. */
  datatype Reply = Authenticated(userId: UserId) | AuthenticationError(message: string)

  /** The new socket fields, the new room table and the one reply. */
  datatype AuthStep = AuthStep(auth: Auth, rooms: Rooms, reply: Reply)

  /** The `authenticate` handler (lines 181-192). On success the socket takes
      the verified id, is marked authenticated, joins the new personal room
      (without leaving any room it was already in) and is acknowledged with that id. On failure
      only an `authentication_error` "Invalid token" is sent. */
  function AuthenticateStep(verify: Token -> Option<UserId>, a: Auth, c: ConnId,
                            rooms: Rooms, token: Token): (s: AuthStep)
    ensures verify(token).Some? ==>
      && s.auth == Auth(verify(token), true)
      && s.reply == Authenticated(verify(token).value)
      && c in Targets(s.rooms, UserRoom(verify(token)))
    ensures verify(token).None? ==>
      s.auth == a && s.rooms == rooms && s.reply == AuthenticationError(InvalidTokenMessage)
    ensures Coherent(a) ==> Coherent(s.auth)
    ensures InOwnRoom(a, c, rooms) ==> InOwnRoom(s.auth, c, s.rooms)
    ensures a.authenticated ==> s.auth.authenticated
    ensures forall q :: Targets(rooms, q) <= Targets(s.rooms, q)
    ensures forall q, d :: d != c ==> (d in Targets(s.rooms, q) <==> d in Targets(rooms, q))
    ensures forall q, d :: d in Targets(s.rooms, q) ==>
      d in Targets(rooms, q) || (verify(token).Some? && q == UserRoom(verify(token)) && d == c)
  {
    match verify(token)
    case Some(id) =>
      var auth := Auth(Some(id), true);
      AuthStep(auth, Join(rooms, UserRoom(auth.userId), c), Authenticated(id))
    case None =>
      AuthStep(a, rooms, AuthenticationError(InvalidTokenMessage))
  }

  // ---------------------------------------------------------------------
  // The whole gateway driven by a trace of events
  // ---------------------------------------------------------------------

  /** `Connect` runs the middleware and then the `connection` handler for a new
      connection id; `AuthenticateMsg` is an `authenticate` message arriving on
      an open connection; `Disconnect` closes it. */
  datatype Event =
    | Connect(c: ConnId, handshakeToken: Option<Token>)
    | AuthenticateMsg(c: ConnId, token: Token)
    | Disconnect(c: ConnId)

  /** The open connections with their fields, the room table, and every reply
      sent so far, in order, with the connection it went to. */
  datatype Hub = Hub(conns: map<ConnId, Auth>, rooms: Rooms, sent: seq<(ConnId, Reply)>)

  const EmptyHub: Hub := Hub(map[], map[], [])

  /** Every open connection satisfies the state-machine invariant and is in its
      own room, and rooms only hold open connections. */
  ghost predicate Inv(h: Hub) {
    && (forall c :: c in h.conns ==> Coherent(h.conns[c]) && InOwnRoom(h.conns[c], c, h.rooms))
    && (forall q, d :: d in Targets(h.rooms, q) ==> d in h.conns)
  }

  /** Removing a closed connection from every room. This is socket.io's own
      behaviour on disconnect; the handler at lines 172-178 only logs. */
  function LeaveAll(rooms: Rooms, c: ConnId): (r: Rooms)
    ensures forall q, d :: d in Targets(r, q) <==> d in Targets(rooms, q) && d != c
  {
    map q | q in rooms :: rooms[q] - {c}
  }

  /** One event. Ids are never reused, so a `Connect` for an open id and a
      message for a closed one are not delivered and change nothing.
      Otherwise a `Connect` opens the connection with the handshake's fields,
      an `authenticate` message records exactly one reply to its sender, and
      a `Disconnect` closes the connection. */
  function Apply(verify: Token -> Option<UserId>, h: Hub, e: Event): (h': Hub)
    ensures (e.Connect? && e.c in h.conns) || (!e.Connect? && e.c !in h.conns) ==> h' == h
    ensures e.Connect? ==> h'.conns.Keys == h.conns.Keys + {e.c}
    ensures e.Connect? && e.c !in h.conns ==> h'.conns[e.c] == HandshakeAuth(verify, e.handshakeToken)
    ensures e.AuthenticateMsg? ==> h'.conns.Keys == h.conns.Keys
    ensures e.Disconnect? ==> h'.conns.Keys == h.conns.Keys - {e.c}
    ensures e.AuthenticateMsg? && e.c in h.conns ==>
      |h'.sent| == |h.sent| + 1 && h'.sent[..|h.sent|] == h.sent && h'.sent[|h.sent|].0 == e.c
    ensures !(e.AuthenticateMsg? && e.c in h.conns) ==> h'.sent == h.sent
  {
    match e
    case Connect(c, token) =>
      if c in h.conns then h
      else
        var a := HandshakeAuth(verify, token);
        Hub(h.conns[c := a], ConnectionRooms(a, c, h.rooms), h.sent)
    case AuthenticateMsg(c, token) =>
      if c !in h.conns then h
      else
        var s := AuthenticateStep(verify, h.conns[c], c, h.rooms, token);
        Hub(h.conns[c := s.auth], s.rooms, h.sent + [(c, s.reply)])
    case Disconnect(c) =>
      if c !in h.conns then h
      else Hub(h.conns - {c}, LeaveAll(h.rooms, c), h.sent)
  }

  function Run(verify: Token -> Option<UserId>, h: Hub, events: seq<Event>): Hub
    decreases |events|
  {
    if events == [] then h else Run(verify, Apply(verify, h, events[0]), events[1..])
  }

  lemma ApplyPreservesInv(verify: Token -> Option<UserId>, h: Hub, e: Event)
    requires Inv(h)
    ensures Inv(Apply(verify, h, e))
  {
    var h' := Apply(verify, h, e);
    match e
    case Connect(c, token) =>
      if c !in h.conns {
        forall d | d in h'.conns
          ensures Coherent(h'.conns[d]) && InOwnRoom(h'.conns[d], d, h'.rooms)
        {
          if d != c {
            assert InOwnRoom(h.conns[d], d, h.rooms);
          }
        }
      }
    case AuthenticateMsg(c, token) =>
      if c in h.conns {
        forall d | d in h'.conns
          ensures Coherent(h'.conns[d]) && InOwnRoom(h'.conns[d], d, h'.rooms)
        {
          if d != c {
            assert InOwnRoom(h.conns[d], d, h.rooms);
          }
        }
      }
    case Disconnect(c) =>
      if c in h.conns {
        forall d | d in h'.conns
          ensures Coherent(h'.conns[d]) && InOwnRoom(h'.conns[d], d, h'.rooms)
        {
          assert InOwnRoom(h.conns[d], d, h.rooms);
        }
      }
  }

  /** Every trace from a state satisfying the invariant keeps it. */
  lemma {:induction false} RunPreservesInv(verify: Token -> Option<UserId>, h: Hub, events: seq<Event>)
    requires Inv(h)
    ensures Inv(Run(verify, h, events))
    decreases |events|
  {
    if events != [] {
      ApplyPreservesInv(verify, h, events[0]);
      RunPreservesInv(verify, Apply(verify, h, events[0]), events[1..]);
    }
  }

  /** Every hub the server reaches from a fresh start, whatever the verifier
      answers and whatever events arrive, satisfies the invariant. */
  lemma ReachableInv(verify: Token -> Option<UserId>, events: seq<Event>)
    ensures Inv(Run(verify, EmptyHub, events))
  {
    RunPreservesInv(verify, EmptyHub, events);
  }

  /** No event puts a connection into someone else's room: every membership
      an event adds belongs to the connection the event is about, which is
      then open, authenticated, and the room is its current user's own. */
  lemma ApplyJoinsOnlyOwnRoom(verify: Token -> Option<UserId>, h: Hub, e: Event, q: Room, d: ConnId)
    requires d in Targets(Apply(verify, h, e).rooms, q) && d !in Targets(h.rooms, q)
    ensures var h' := Apply(verify, h, e);
      && !e.Disconnect? && d == e.c && d in h'.conns
      && h'.conns[d].authenticated && q == UserRoom(h'.conns[d].userId)
  {
  }

  /** At event `i` of `events`, connection `d` was authenticated and `q` was
      its user's personal room. */
  ghost predicate JoinedAt(verify: Token -> Option<UserId>, h: Hub, events: seq<Event>, i: nat, q: Room, d: ConnId)
    requires i < |events|
  {
    var hi := Run(verify, h, events[..i + 1]);
    && events[i].c == d && !events[i].Disconnect? && d in hi.conns
    && hi.conns[d].authenticated && q == UserRoom(hi.conns[d].userId)
  }

  /** Over any trace, a connection sits only in rooms it had at the start or
      in the personal room of a user it was authenticated as at some event:
      no trace delivers another user's broadcasts to it. */
  lemma {:induction false} RunJoinsOnlyOwnRooms(verify: Token -> Option<UserId>, h: Hub, events: seq<Event>, q: Room, d: ConnId)
    requires d in Targets(Run(verify, h, events).rooms, q) && d !in Targets(h.rooms, q)
    ensures exists i :: 0 <= i < |events| && JoinedAt(verify, h, events, i, q, d)
    decreases |events|
  {
    var h1 := Apply(verify, h, events[0]);
    assert Run(verify, h, events[..1]) == h1 by {
      assert events[..1][1..] == [];
    }
    if d in Targets(h1.rooms, q) {
      ApplyJoinsOnlyOwnRoom(verify, h, events[0], q, d);
      assert JoinedAt(verify, h, events, 0, q, d);
    } else {
      RunJoinsOnlyOwnRooms(verify, h1, events[1..], q, d);
      var j :| 0 <= j < |events| - 1 && JoinedAt(verify, h1, events[1..], j, q, d);
      assert events[..j + 2][1..] == events[1..][..j + 1];
      assert JoinedAt(verify, h, events, j + 1, q, d);
    }
  }

  /** The middleware never turns a connection away: whatever the token, the
      connection is opened, authenticated exactly when the token verifies. */
  lemma ConnectNeverRejects(verify: Token -> Option<UserId>, h: Hub, c: ConnId, token: Option<Token>)
    requires c !in h.conns
    ensures var h' := Apply(verify, h, Connect(c, token));
      && c in h'.conns
      && (h'.conns[c].authenticated <==> Truthy(token) && verify(token.value).Some?)
      && (!h'.conns[c].authenticated ==> h'.conns[c] == Auth(None, false) && h'.rooms == h.rooms)
      && (h'.conns[c].authenticated ==> c in Targets(h'.rooms, UserRoom(verify(token.value))))
  {
  }

  /** A failed `authenticate` sends "Invalid token" and changes nothing else:
      fields, rooms and the connection itself stay as they were. */
  lemma FailedAuthenticateChangesNothing(verify: Token -> Option<UserId>, h: Hub, c: ConnId, token: Token)
    requires c in h.conns && verify(token).None?
    ensures var h' := Apply(verify, h, AuthenticateMsg(c, token));
      && h'.conns == h.conns
      && h'.rooms == h.rooms
      && h'.sent == h.sent + [(c, AuthenticationError(InvalidTokenMessage))]
  {
  }

  /** An event never unauthenticates an open connection, and never removes an
      open connection from a room. */
  lemma ApplyMonotone(verify: Token -> Option<UserId>, h: Hub, e: Event, c: ConnId, q: Room)
    requires c in h.conns && c in Apply(verify, h, e).conns
    ensures h.conns[c].authenticated ==> Apply(verify, h, e).conns[c].authenticated
    ensures c in Targets(h.rooms, q) ==> c in Targets(Apply(verify, h, e).rooms, q)
  {
  }

  /** Over a whole trace in which `c` is never closed, `c` never becomes
      unauthenticated and never leaves a room. */
  lemma {:induction false} RunMonotone(verify: Token -> Option<UserId>, h: Hub, events: seq<Event>, c: ConnId, q: Room)
    requires c in h.conns
    requires forall i :: 0 <= i < |events| ==> events[i] != Disconnect(c)
    ensures c in Run(verify, h, events).conns
    ensures h.conns[c].authenticated ==> Run(verify, h, events).conns[c].authenticated
    ensures c in Targets(h.rooms, q) ==> c in Targets(Run(verify, h, events).rooms, q)
    decreases |events|
  {
    if events != [] {
      var h1 := Apply(verify, h, events[0]);
      ApplyMonotone(verify, h, events[0], c, q);
      assert forall i :: 0 <= i < |events[1..]| ==> events[1..][i] == events[i + 1];
      RunMonotone(verify, h1, events[1..], c, q);
    }
  }

  /** Re-authenticating as another user joins the new personal room and stays
      in the old one: broadcasts to the old user still reach this connection. */
  lemma ReauthenticateKeepsOldRoom(verify: Token -> Option<UserId>, h: Hub, c: ConnId, token: Token, u: UserId)
    requires Inv(h) && c in h.conns && h.conns[c].userId == Some(u)
    requires verify(token).Some? && verify(token).value != u
    ensures var h' := Apply(verify, h, AuthenticateMsg(c, token));
      && h'.conns[c] == Auth(verify(token), true)
      && c in Targets(h'.rooms, UserRoom(verify(token)))
      && c in Targets(h'.rooms, UserRoom(Some(u)))
      && UserRoom(verify(token)) != UserRoom(Some(u))
  {
    assert InOwnRoom(h.conns[c], c, h.rooms);
    UserRoomInjective(u, verify(token).value);
  }

  /** A second `authenticate` with the same token leaves fields and rooms as
      the first one left them; only a second acknowledgement is sent. */
  lemma AuthenticateTwice(verify: Token -> Option<UserId>, h: Hub, c: ConnId, token: Token)
    requires c in h.conns
    ensures var h1 := Apply(verify, h, AuthenticateMsg(c, token));
      var h2 := Apply(verify, h1, AuthenticateMsg(c, token));
      && h2.conns == h1.conns
      && h2.rooms == h1.rooms
      && h2.sent == h1.sent + [h1.sent[|h1.sent| - 1]]
  {
    var h1 := Apply(verify, h, AuthenticateMsg(c, token));
    if verify(token).Some? {
      var room := UserRoom(verify(token));
      assert c in Targets(h1.rooms, room);
      assert Join(h1.rooms, room, c) == h1.rooms;
    }
  }

  /** An event on one connection changes neither the fields nor the room
      memberships of any other connection. */
  lemma OthersUntouched(verify: Token -> Option<UserId>, h: Hub, e: Event, d: ConnId, q: Room)
    requires d in h.conns && d != e.c
    ensures var h' := Apply(verify, h, e);
      && d in h'.conns && h'.conns[d] == h.conns[d]
      && (d in Targets(h'.rooms, q) <==> d in Targets(h.rooms, q))
  {
  }

  /** After a connection closes, no room targets it. */
  lemma DisconnectLeavesEveryRoom(verify: Token -> Option<UserId>, h: Hub, c: ConnId, q: Room)
    ensures c !in Apply(verify, h, Disconnect(c)).conns
    ensures Inv(h) ==> c !in Targets(Apply(verify, h, Disconnect(c)).rooms, q)
  {
  }

  /** The end-to-end scenario: a connection opens without a token, sends a
      valid `authenticate`, is acknowledged with its user id and becomes the
      only target of that user's room; once it closes the room reaches nobody. */
  lemma AuthenticateAfterConnectScenario(verify: Token -> Option<UserId>, c: ConnId, token: Token, u: UserId)
    requires verify(token) == Some(u)
    ensures var h := Run(verify, EmptyHub, [Connect(c, None), AuthenticateMsg(c, token)]);
      && h.sent == [(c, Authenticated(u))]
      && Targets(h.rooms, UserRoom(Some(u))) == {c}
    ensures Targets(Run(verify, EmptyHub, [Connect(c, None), AuthenticateMsg(c, token), Disconnect(c)]).rooms,
                    UserRoom(Some(u))) == {}
  {
    var e0, e1, e2 := Connect(c, None), AuthenticateMsg(c, token), Disconnect(c);
    var h0 := Apply(verify, EmptyHub, e0);
    var h1 := Apply(verify, h0, e1);
    var h2 := Apply(verify, h1, e2);
    assert Run(verify, h1, []) == h1;
    assert Run(verify, h0, [e1]) == h1 by { assert [e1][1..] == []; }
    assert Run(verify, EmptyHub, [e0, e1]) == h1 by { assert [e0, e1][1..] == [e1]; }
    assert Run(verify, h2, []) == h2;
    assert Run(verify, h1, [e2]) == h2 by { assert [e2][1..] == []; }
    assert Run(verify, h0, [e1, e2]) == h2 by { assert [e1, e2][1..] == [e2]; }
    assert Run(verify, EmptyHub, [e0, e1, e2]) == h2 by { assert [e0, e1, e2][1..] == [e1, e2]; }
    assert h0.rooms == map[];
  }

  // ---------------------------------------------------------------------
  // The objects the handlers update in place
  // ---------------------------------------------------------------------

  /** The socket.io adapter's room table, shared by all sockets. */
  class Adapter {
    var rooms: Rooms

    constructor ()
      ensures rooms == map[]
    {
      rooms := map[];
    }

    /** `socket.join(room)` for connection `c`. */
    method AddMember(room: Room, c: ConnId)
      modifies this
      ensures rooms == Join(old(rooms), room, c)
    {
      rooms := rooms[room := Targets(rooms, room) + {c}];
    }
  }

  /** One server-side socket: its id, its handshake headers, the two fields
      the handlers assign, and the replies emitted to it. */
  class Socket {
    const id: ConnId
    var headers: map<string, string>
    var userId: Option<UserId>
    var authenticated: bool
    var emitted: seq<Reply>

    constructor (id: ConnId, headers: map<string, string>)
      ensures this.id == id && this.headers == headers
      ensures State() == Fresh && emitted == []
    {
      this.id := id;
      this.headers := headers;
      userId := None;
      authenticated := false;
      emitted := [];
    }

    function State(): Auth
      reads this
    {
      Auth(userId, authenticated)
    }
  }

  /** The argument the middleware passes to `next`. */
  datatype NextCall = Next | NextWithError(message: string)

  class SocketServer {
    const verify: Token -> Option<UserId>
    const adapter: Adapter

    constructor (verify: Token -> Option<UserId>)
      ensures this.verify == verify && fresh(adapter) && adapter.rooms == map[]
    {
      this.verify := verify;
      adapter := new Adapter();
    }

    /** The `io.use` middleware. A websocket upgrade gets `cache-control:
        no-cache` on its handshake headers; then the token decides the socket's
        fields, and `next()` is called without an error on every path. */
    method Handshake(socket: Socket, token: Option<Token>) returns (next: NextCall)
      modifies socket`headers, socket`userId, socket`authenticated
      ensures next == Next
      ensures socket.State() == HandshakeAuth(verify, token)
      ensures socket.headers ==
        if "upgrade" in old(socket.headers) && old(socket.headers)["upgrade"] == "websocket"
        then old(socket.headers)["cache-control" := "no-cache"]
        else old(socket.headers)
    {
      if "upgrade" in socket.headers && socket.headers["upgrade"] == "websocket" {
        socket.headers := socket.headers["cache-control" := "no-cache"];
      }
      if !Truthy(token) {
        socket.userId := None;
        socket.authenticated := false;
        return Next;
      }
      var decoded := verify(token.value);
      if decoded.Some? {
        socket.userId := decoded;
        socket.authenticated := true;
        next := Next;
      } else {
        socket.userId := None;
        socket.authenticated := false;
        next := Next;
      }
    }

    /** The `connection` handler. */
    method OnConnection(socket: Socket)
      modifies adapter
      ensures adapter.rooms == ConnectionRooms(socket.State(), socket.id, old(adapter.rooms))
    {
      if socket.authenticated {
        adapter.AddMember(UserRoom(socket.userId), socket.id);
      }
    }

    /** The `authenticate` handler. */
    method OnAuthenticate(socket: Socket, token: Token)
      modifies socket`userId, socket`authenticated, socket`emitted, adapter
      ensures var s := AuthenticateStep(verify, old(socket.State()), socket.id, old(adapter.rooms), token);
        && socket.State() == s.auth
        && adapter.rooms == s.rooms
        && socket.emitted == old(socket.emitted) + [s.reply]
    {
      var decoded := verify(token);
      if decoded.Some? {
        socket.userId := decoded;
        socket.authenticated := true;
        adapter.AddMember(UserRoom(socket.userId), socket.id);
        socket.emitted := socket.emitted + [Authenticated(socket.userId.value)];
      } else {
        socket.emitted := socket.emitted + [AuthenticationError(InvalidTokenMessage)];
      }
    }

    /** The `disconnect` handler changes no field and no room; its only effect
        is the line it logs, which depends on the `authenticated` flag. */
    method OnDisconnect(socket: Socket) returns (log: string)
      ensures socket.authenticated ==> log == "Authenticated user disconnected: " + Printed(socket.userId)
      ensures !socket.authenticated ==> log == "Unauthenticated user disconnected"
    {
      if socket.authenticated {
        log := "Authenticated user disconnected: " + Printed(socket.userId);
      } else {
        log := "Unauthenticated user disconnected";
      }
    }
  }
}
