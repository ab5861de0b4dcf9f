/** The client's connection controller (client/src/context/SocketContext.jsx):
    the effect that tears down, keeps or creates the socket as the login state
    changes, the handlers it installs on a new socket, and the guarded `emit`,
    `on`, `off` and `authenticate` operations it exposes.

    React's `socket` and `connected` state and the `socketRef` ref are fields
    of `SocketProvider`, assigned directly where the component calls a setter. The
    socket.io client socket is `ClientSocket`: its own `connected` flag, the
    packets it emitted, and its listeners. */
module SocketContext {
  import opened Wrappers
  import Browser

  const DefaultWsUrl: string := "http://localhost:5000"
  const ApiSuffix: string := "/api"

  const ClientDisconnect: string := "io client disconnect"
  const ServerDisconnect: string := "io server disconnect"

  predicate HasApiSuffix(url: string) {
    |url| >= |ApiSuffix| && url[|url| - |ApiSuffix|..] == ApiSuffix
  }

  /** `url.replace(/\/api$/, '')`: removes one trailing "/api", if any. */
  function StripApiSuffix(url: string): (r: string)
    ensures HasApiSuffix(url) ==> r + ApiSuffix == url
    ensures !HasApiSuffix(url) ==> r == url
  {
    if HasApiSuffix(url) then url[..|url| - |ApiSuffix|] else url
  }

  /** Only one suffix is removed: a URL ending in "/api/api" keeps one. */
  lemma StripApiSuffixOnce(base: string)
    ensures StripApiSuffix(base + ApiSuffix) == base
  {
    var url := base + ApiSuffix;
    assert url[|url| - |ApiSuffix|..] == ApiSuffix;
    assert url[..|url| - |ApiSuffix|] == base;
  }

  /** The WebSocket URL (lines 35-44): `VITE_WS_URL` when set; otherwise
      `VITE_API_URL` without a trailing "/api"; otherwise the local default. */
  function WsUrl(wsEnv: Option<string>, apiEnv: Option<string>): (r: string)
    ensures Truthy(wsEnv) ==> r == wsEnv.value
    ensures !Truthy(wsEnv) && Truthy(apiEnv) && HasApiSuffix(apiEnv.value) ==> r + ApiSuffix == apiEnv.value
    ensures !Truthy(wsEnv) && Truthy(apiEnv) && !HasApiSuffix(apiEnv.value) ==> r == apiEnv.value
    ensures !Truthy(wsEnv) && !Truthy(apiEnv) ==> r == DefaultWsUrl
  {
    if Truthy(wsEnv) then wsEnv.value
    else if Truthy(apiEnv) then StripApiSuffix(apiEnv.value)
    else DefaultWsUrl
  }

  /** The events the effect installs a handler for on each new socket. */
  const HandlerEvents: multiset<string> :=
    multiset{"connect", "disconnect", "connect_error", "authenticated", "authentication_error"}

  /** One packet emitted on a client socket. */
  datatype Packet = Packet(event: string, data: string)

  /** A socket.io client socket created by `io(url, {auth: {token}, ...})`. */
  class ClientSocket {
    const url: string
    const authToken: Option<string>
    var connected: bool
    var closed: bool
    var sent: seq<Packet>
    var listeners: multiset<string>

    constructor (url: string, authToken: Option<string>)
      ensures this.url == url && this.authToken == authToken
      ensures !connected && !closed && sent == [] && listeners == multiset{}
    {
      this.url := url;
      this.authToken := authToken;
      connected := false;
      closed := false;
      sent := [];
      listeners := multiset{};
    }

    method Emit(event: string, data: string)
      modifies this`sent
      ensures sent == old(sent) + [Packet(event, data)]
    {
      sent := sent + [Packet(event, data)];
    }

    /** `socket.on(event, callback)`: one more listener for `event`. */
    method On(event: string)
      modifies this`listeners
      ensures listeners == old(listeners) + multiset{event}
    {
      listeners := listeners + multiset{event};
    }

    /** `socket.off(event)` without a callback: every listener for `event` goes. */
    method Off(event: string)
      modifies this`listeners
      ensures listeners == old(listeners)[event := 0]
    {
      listeners := listeners[event := 0];
    }

    /** `socket.disconnect()`: closes the socket for good (no reconnection). */
    method Disconnect()
      modifies this`connected, this`closed
      ensures !connected && closed
    {
      connected := false;
      closed := true;
    }
  }

  class SocketProvider {
    const storage: Browser.LocalStorage
    const wsEnv: Option<string>
    const apiEnv: Option<string>
    var socketRef: ClientSocket?
    var socket: ClientSocket?
    var connected: bool
    /** Whether the last run of the effect returned its cleanup function. */
    var cleanupPending: bool

    constructor (storage: Browser.LocalStorage, wsEnv: Option<string>, apiEnv: Option<string>)
      ensures this.storage == storage && this.wsEnv == wsEnv && this.apiEnv == apiEnv
      ensures socketRef == null && socket == null && !connected && !cleanupPending
    {
      this.storage := storage;
      this.wsEnv := wsEnv;
      this.apiEnv := apiEnv;
      socketRef := null;
      socket := null;
      connected := false;
      cleanupPending := false;
    }

    function StoredToken(): Option<string>
      reads this, storage
    {
      storage.GetItem(Browser.TokenKey)
    }

    /** The effect body (lines 13-113), with `isAuthenticated && user` as
        `loggedIn`. Logged out: an existing socket is disconnected and ref,
        socket and `connected` are cleared; with no socket nothing changes.
        Logged in with a connected socket: nothing changes. Otherwise a new
        socket for `WsUrl` carrying the stored token, with the five event
        handlers installed, becomes the ref (a previous,
        unconnected socket in the ref is dropped without being disconnected).
        The result says whether the cleanup function was returned. */
    method RunEffect(loggedIn: bool) returns (created: ClientSocket?, registersCleanup: bool)
      modifies this`socketRef, this`socket, this`connected, socketRef
      ensures !loggedIn ==> created == null && !registersCleanup
      ensures !loggedIn && old(socketRef) != null ==>
        && old(socketRef).closed && !old(socketRef).connected
        && old(socketRef).sent == old(socketRef.sent) && old(socketRef).listeners == old(socketRef.listeners)
        && socketRef == null && socket == null && !connected
      ensures !loggedIn && old(socketRef) == null ==>
        socketRef == null && socket == old(socket) && connected == old(connected)
      ensures loggedIn && old(socketRef) != null && old(socketRef.connected) ==>
        && created == null && !registersCleanup
        && socketRef == old(socketRef) && socket == old(socket) && connected == old(connected)
        && unchanged(old(socketRef))
      ensures loggedIn && !(old(socketRef) != null && old(socketRef.connected)) ==>
        && registersCleanup && created != null && fresh(created)
        && created.url == WsUrl(wsEnv, apiEnv) && created.authToken == StoredToken()
        && !created.connected && !created.closed && created.sent == []
        && created.listeners == HandlerEvents
        && socketRef == created && socket == old(socket) && connected == old(connected)
        && (old(socketRef) != null ==> unchanged(old(socketRef)))
    {
      if !loggedIn {
        Cleanup();
        return null, false;
      }
      if socketRef != null && socketRef.connected {
        return null, false;
      }
      created := NewSocket();
      socketRef := created;
      registersCleanup := true;
    }

    /** `io(url, {auth: {token}, ...})` followed by the five `socket.on`
        registrations of the effect (lines 48-99). */
    method NewSocket() returns (created: ClientSocket)
      ensures fresh(created)
      ensures created.url == WsUrl(wsEnv, apiEnv) && created.authToken == StoredToken()
      ensures !created.connected && !created.closed && created.sent == []
      ensures created.listeners == HandlerEvents
    {
      var token := storage.GetItem(Browser.TokenKey);
      created := new ClientSocket(WsUrl(wsEnv, apiEnv), token);
      created.On("connect");
      created.On("disconnect");
      created.On("connect_error");
      created.On("authenticated");
      created.On("authentication_error");
    }

    /** The cleanup function (lines 104-112): when the ref holds a socket, that
        socket is closed and afterwards there is no socket and `connected` is
        false, so a later `Emit` sends nothing; with an empty ref nothing
        changes. */
    method Cleanup()
      modifies this`socketRef, this`socket, this`connected, socketRef
      ensures old(socketRef) != null ==>
        && old(socketRef).closed && !old(socketRef).connected
        && old(socketRef).sent == old(socketRef.sent) && old(socketRef).listeners == old(socketRef.listeners)
        && socketRef == null && socket == null && !connected
      ensures old(socketRef) == null ==>
        socketRef == null && socket == old(socket) && connected == old(connected)
    {
      if socketRef != null {
        socketRef.Disconnect();
        socketRef := null;
        socket := null;
        connected := false;
      }
    }

    /** React re-running the effect when `isAuthenticated` or `user` change:
        the previous run's cleanup, if it returned one, runs first. So with a
        pending cleanup a logged-in user always gets a new socket, the old one
        closed; without one, a connected socket in the ref is kept. */
    method DependenciesChanged(loggedIn: bool) returns (created: ClientSocket?)
      modifies this`socketRef, this`socket, this`connected, this`cleanupPending, socketRef
      ensures !loggedIn ==> socketRef == null
      ensures !loggedIn && old(socketRef) != null ==>
        && socketRef == null && socket == null && !connected
        && old(socketRef).closed && !old(socketRef).connected
        && old(socketRef).sent == old(socketRef.sent) && old(socketRef).listeners == old(socketRef.listeners)
      ensures !loggedIn && old(socketRef) == null ==> socket == old(socket) && connected == old(connected)
      ensures !loggedIn ==> created == null && !cleanupPending
      ensures loggedIn && old(cleanupPending) && old(socketRef) != null ==>
        && old(socketRef).closed && !old(socketRef).connected
        && old(socketRef).sent == old(socketRef.sent) && old(socketRef).listeners == old(socketRef.listeners)
        && socket == null && !connected
      ensures loggedIn && !(old(cleanupPending) && old(socketRef) != null) ==>
        socket == old(socket) && connected == old(connected)
      ensures loggedIn && !old(cleanupPending) && old(socketRef) != null && old(socketRef.connected) ==>
        && created == null && !cleanupPending
        && socketRef == old(socketRef) && socket == old(socket) && connected == old(connected)
        && unchanged(old(socketRef))
      ensures loggedIn && !old(cleanupPending) && !(old(socketRef) != null && old(socketRef.connected)) ==>
        (old(socketRef) != null ==> unchanged(old(socketRef)))
      ensures loggedIn && (old(cleanupPending) || !(old(socketRef) != null && old(socketRef.connected))) ==>
        && created != null && fresh(created) && socketRef == created && cleanupPending
        && created.url == WsUrl(wsEnv, apiEnv) && created.authToken == StoredToken()
        && !created.connected && !created.closed && created.sent == []
        && created.listeners == HandlerEvents
    {
      if cleanupPending {
        Cleanup();
      }
      created, cleanupPending := RunEffect(loggedIn);
    }

    /** The `connect` handler of socket `s` (lines 63-74), after the library
        marked `s` connected: `s` is published and, when a token is stored,
        `authenticate` is emitted with it exactly once. */
    method OnConnect(s: ClientSocket)
      modifies this`socket, this`connected, s`connected, s`sent
      ensures connected && socket == s && s.connected
      ensures Truthy(StoredToken()) ==> s.sent == old(s.sent) + [Packet("authenticate", StoredToken().value)]
      ensures !Truthy(StoredToken()) ==> s.sent == old(s.sent)
    {
      s.connected := true;
      connected := true;
      socket := s;
      var token := storage.GetItem(Browser.TokenKey);
      if Truthy(token) {
        s.Emit("authenticate", token.value);
      }
    }

    /** The `disconnect` handler of socket `s` (lines 76-85), after the library
        marked `s` disconnected: `connected` always becomes false; socket and ref
        are cleared only for a deliberate client or server disconnect. */
    method OnDisconnect(s: ClientSocket, reason: string)
      modifies this`socket, this`connected, this`socketRef, s`connected
      ensures !connected && !s.connected
      ensures reason == ClientDisconnect || reason == ServerDisconnect ==> socket == null && socketRef == null
      ensures !(reason == ClientDisconnect || reason == ServerDisconnect) ==>
        socket == old(socket) && socketRef == old(socketRef)
    {
      s.connected := false;
      connected := false;
      if reason == ClientDisconnect || reason == ServerDisconnect {
        socket := null;
        socketRef := null;
      }
    }

    /** The `connect_error` handler (lines 87-90). */
    method OnConnectError()
      modifies this`connected
      ensures !connected
    {
      connected := false;
    }

    /** The `authenticated` handler (lines 92-95). */
    method OnAuthenticated()
      modifies this`connected
      ensures connected
    {
      connected := true;
    }

    /** `emit` (lines 115-119): forwards only when a socket is published and
        `connected` is true. */
    method Emit(event: string, data: string)
      modifies socket
      ensures socket != null && connected ==> socket.sent == old(socket.sent) + [Packet(event, data)]
      ensures socket != null && !connected ==> unchanged(socket)
      ensures socket != null ==>
        && socket.listeners == old(socket.listeners)
        && socket.connected == old(socket.connected) && socket.closed == old(socket.closed)
    {
      if socket != null && connected {
        socket.Emit(event, data);
      }
    }

    /** `on` (lines 121-125): registers a listener when a socket is published. */
    method On(event: string)
      modifies socket
      ensures socket != null ==> socket.listeners == old(socket.listeners) + multiset{event}
      ensures socket != null ==>
        && socket.sent == old(socket.sent)
        && socket.connected == old(socket.connected) && socket.closed == old(socket.closed)
    {
      if socket != null {
        socket.On(event);
      }
    }

    /** `off` (lines 127-131): drops every listener for `event`. */
    method Off(event: string)
      modifies socket
      ensures socket != null ==> socket.listeners == old(socket.listeners)[event := 0]
      ensures socket != null ==>
        && socket.sent == old(socket.sent)
        && socket.connected == old(socket.connected) && socket.closed == old(socket.closed)
    {
      if socket != null {
        socket.Off(event);
      }
    }

    /** `authenticate` (lines 133-140): sends the stored token only when the
        published socket is itself connected and a token is stored. */
    method Authenticate()
      modifies socket
      ensures socket != null && socket.connected && Truthy(StoredToken()) ==>
        socket.sent == old(socket.sent) + [Packet("authenticate", StoredToken().value)]
      ensures socket != null && !(socket.connected && Truthy(StoredToken())) ==> unchanged(socket)
      ensures socket != null ==>
        && socket.listeners == old(socket.listeners)
        && socket.connected == old(socket.connected) && socket.closed == old(socket.closed)
    {
      if socket != null && socket.connected {
        var token := storage.GetItem(Browser.TokenKey);
        if Truthy(token) {
          socket.Emit("authenticate", token.value);
        }
      }
    }
  }
}
