/**
  The websocket handshake of the Wave server (`SocketServer.ServeHTTP`): upgrade the request,
  check the session, snapshot the forwarded headers, then either hand the new connection to the
  client already known under `client-id` or create a fresh client that is told its id, and finally
  start the client's two pumps.

  The libraries and collaborators the handler calls (the websocket upgrader and writers, JSON
  encoding, `Auth.identify`, `newClient`, `Client.send`) are not modelled; their answers for one
  request are the input `Collaborators`, and every effect the handler has on the outside world is
  an `Event` in the trace it returns.
 */
module Socket {
  import opened Wrappers
  import opened Http
  import opened Forwarding

  /** One upgraded websocket connection. */
  type ConnId = nat

  /** What `Auth.identify` resolves a request to; `Anonymous` when no authentication is configured. */
  datatype Session = Anonymous | Identified(user: string)

  /** Client lifecycle states: the one a fresh client starts in, and the one the handshake writes on reattach. */
  datatype ClientState = Connect | Reconnect

  /** The control operations (`OpsD`) the handshake writes: `U` navigates the browser, `I` announces an id. */
  datatype Ops = Navigate(url: string) | Hello(id: string)

  /** An effect of the handler, in the order it happens. */
  datatype Event =
    | TextWritten(conn: ConnId, op: Ops)            // a text frame written through NextWriter
    | StatusWritten(code: int)                      // http.Error with this status
    | CloseFrameSent(conn: ConnId)                  // WriteMessage(CloseMessage, [])
    | ConnClosed(conn: ConnId)                      // Close()
    | Locked(client: string)                        // client.lock.Lock()
    | Unlocked(client: string)                      // client.lock.Unlock()
    | Sent(client: string, op: Ops, accepted: bool) // client.send, and what it answered
    | FlushStarted(client: string)                  // go client.flush()
    | ListenStarted(client: string)                 // go client.listen()

  /** How a request ended. */
  datatype Outcome =
    | UpgradeFailed
    | Unauthorized
    | Reattached(id: string)
    | Fresh(id: string, helloSent: bool)

  /** What the collaborators answer while one request is handled. */
  datatype Collaborators = Collaborators(
    upgrade: Option<ConnId>,    // the new connection, or None when Upgrade returns an error
    identity: Option<Session>,  // what auth.identify returns (None for nil)
    logoutEncodes: bool,        // json.Marshal of the navigate op succeeds
    writerOpens: bool,          // conn.NextWriter succeeds
    newId: string,              // the id newClient gives a fresh client
    helloEncodes: bool,         // json.Marshal of the hello op succeeds
    sendAccepts: bool)          // client.send(helloMsg) returns true

  /** The server configuration the handler reads (`ServerConf` and whether an `Auth` is set). */
  datatype Settings = Settings(
    authConfigured: bool,
    editable: bool,
    baseURL: string,
    forwardedHeaders: Option<map<string, bool>>,
    pingInterval: int,
    reconnectTimeout: int)

  /** What the handler sees of the client the broker returns. */
  datatype Attached = Attached(id: string, conn: ConnId)

  /** The trace of one request and how it ended. */
  datatype Handled = Handled(outcome: Outcome, events: seq<Event>)

  /** Where an unauthenticated browser is sent. */
  function LogoutURL(baseURL: string): string {
    baseURL + "_auth/logout"
  }

  /** The `client-id` query parameter (`r.URL.Query().Get`), "" when absent. */
  function ClientIdParam(r: Request): (id: string)
    ensures id != "" ==> "client-id" in r.query && r.query["client-id"] != [] && id == r.query["client-id"][0]
    ensures "client-id" in r.query && r.query["client-id"] != [] ==> id == r.query["client-id"][0]
    ensures "client-id" !in r.query ==> id == ""
  {
    FirstValue(r.query, "client-id")
  }

  /** The request was upgraded but authentication is configured and found no session. */
  predicate Unauthenticated(s: Settings, c: Collaborators) {
    c.upgrade.Some? && s.authConfigured && c.identity.None?
  }

  /** The session a fresh client is created with. */
  function SessionOf(s: Settings, c: Collaborators): (session: Session)
    ensures !s.authConfigured ==> session == Anonymous
    ensures s.authConfigured && !Unauthenticated(s, c) && c.upgrade.Some? ==> session == c.identity.value
  {
    if s.authConfigured && c.identity.Some? then c.identity.value else Anonymous
  }

  /** The handler reached its last two statements and started both pumps. */
  predicate PumpsStarted(o: Outcome) {
    o.Reattached? || (o.Fresh? && o.helloSent)
  }

  /**
    The decision `ServeHTTP` makes for one request, given the collaborators' answers and the
    client (if any) the broker holds under the request's `client-id`.
   */
  function Handshake(s: Settings, c: Collaborators, found: Option<Attached>): (h: Handled)
    ensures h.outcome.UpgradeFailed? <==> c.upgrade.None?
    ensures h.outcome.Unauthorized? <==> Unauthenticated(s, c)
    ensures h.outcome.Reattached? <==> c.upgrade.Some? && !Unauthenticated(s, c) && found.Some?
    ensures h.outcome.Fresh? <==> c.upgrade.Some? && !Unauthenticated(s, c) && found.None?
    ensures PumpsStarted(h.outcome) <==>
      c.upgrade.Some? && !Unauthenticated(s, c) && (found.Some? || (c.helloEncodes && c.sendAccepts))
  {
    match c.upgrade
    case None => Handled(UpgradeFailed, [])
    case Some(conn) =>
      if Unauthenticated(s, c) then
        if !c.logoutEncodes then Handled(Unauthorized, [])
        else if !c.writerOpens then Handled(Unauthorized, [StatusWritten(401)])
        else Handled(Unauthorized, [TextWritten(conn, Navigate(LogoutURL(s.baseURL)))])
      else
        match found
        case Some(prev) =>
          Handled(Reattached(prev.id),
            [Locked(prev.id), CloseFrameSent(prev.conn), ConnClosed(prev.conn), Unlocked(prev.id),
             FlushStarted(prev.id), ListenStarted(prev.id)])
        case None =>
          var id := c.newId;
          if !c.helloEncodes then Handled(Fresh(id, false), [StatusWritten(500)])
          else if !c.sendAccepts then Handled(Fresh(id, false), [Sent(id, Hello(id), false), StatusWritten(500)])
          else Handled(Fresh(id, true), [Sent(id, Hello(id), true), FlushStarted(id), ListenStarted(id)])
  }

  /** After a failed upgrade the handler adds no effect and never reaches authentication or the broker. */
  lemma UpgradeFailureIsInert(s: Settings, c: Collaborators, found: Option<Attached>)
    requires c.upgrade.None?
    ensures Handshake(s, c, found) == Handled(UpgradeFailed, [])
    ensures Handshake(s, c, found) == Handshake(s.(authConfigured := false), c.(identity := None), None)
  {
  }

  /**
    A request without a session ends before the broker is consulted (its answer makes no
    difference) and starts no pump; the only frame it may write navigates to the logout page, and
    it writes 401 exactly when the navigate op was encoded but no writer could be opened.
   */
  lemma UnauthenticatedStopsEarly(s: Settings, c: Collaborators, found: Option<Attached>, other: Option<Attached>)
    requires Unauthenticated(s, c)
    ensures Handshake(s, c, found).outcome == Unauthorized
    ensures Handshake(s, c, found) == Handshake(s, c, other)
    ensures forall e :: e in Handshake(s, c, found).events ==>
      e == TextWritten(c.upgrade.value, Navigate(s.baseURL + "_auth/logout")) || e == StatusWritten(401)
    ensures StatusWritten(401) in Handshake(s, c, found).events <==> c.logoutEncodes && !c.writerOpens
    ensures TextWritten(c.upgrade.value, Navigate(s.baseURL + "_auth/logout")) in Handshake(s, c, found).events
      <==> c.logoutEncodes && c.writerOpens
  {
  }

  /**
    The broker's answer picks the branch: a known client is reattached, an unknown id gets a fresh
    client, whenever the request was upgraded and authenticated.
   */
  lemma BranchChoice(s: Settings, c: Collaborators, found: Option<Attached>)
    requires c.upgrade.Some? && !Unauthenticated(s, c)
    ensures found.Some? ==> Handshake(s, c, found).outcome == Reattached(found.value.id)
    ensures found.None? ==> Handshake(s, c, found).outcome.Fresh? && Handshake(s, c, found).outcome.id == c.newId
  {
  }

  /**
    Reattaching closes the old connection (close frame first) while holding the client's lock and
    sends no hello and no HTTP status.
   */
  lemma ReattachClosesOldConnection(s: Settings, c: Collaborators, prev: Attached)
    requires c.upgrade.Some? && !Unauthenticated(s, c)
    ensures var h := Handshake(s, c, Some(prev));
      && h.events[..4] == [Locked(prev.id), CloseFrameSent(prev.conn), ConnClosed(prev.conn), Unlocked(prev.id)]
      && (forall e :: e in h.events ==> !e.Sent? && !e.StatusWritten? && !e.TextWritten?)
  {
  }

  /**
    A fresh client announces its own id; the handler writes 500 and starts no pump exactly when
    the hello could not be encoded or was refused by `send`.
   */
  lemma FreshHelloCarriesId(s: Settings, c: Collaborators)
    requires c.upgrade.Some? && !Unauthenticated(s, c)
    ensures var h := Handshake(s, c, None);
      && (c.helloEncodes <==> exists accepted :: Sent(c.newId, Hello(c.newId), accepted) in h.events)
      && (forall e :: e in h.events && e.Sent? ==> e.op == Hello(e.client) && e.client == c.newId)
      && (StatusWritten(500) in h.events <==> !(c.helloEncodes && c.sendAccepts))
      && (StatusWritten(500) in h.events <==> !PumpsStarted(h.outcome))
  {
  }

  /**
    `flush` and `listen` are started together, as the last two effects, for the client the handler
    ends with, exactly when it reached its end; otherwise neither is started for anyone.
   */
  lemma PumpsStartExactlyAtEnd(s: Settings, c: Collaborators, found: Option<Attached>)
    ensures var h := Handshake(s, c, found);
      if PumpsStarted(h.outcome) then
        && |h.events| >= 2
        && h.events[|h.events| - 2..] == [FlushStarted(h.outcome.id), ListenStarted(h.outcome.id)]
        && (forall e :: e in h.events[..|h.events| - 2] ==> !e.FlushStarted? && !e.ListenStarted?)
      else
        forall e :: e in h.events ==> !e.FlushStarted? && !e.ListenStarted?
  {
  }

  /** A logical session: the durable client behind one or more websocket connections. */
  class Client {
    var id: string
    var conn: ConnId
    var state: ClientState
    var addr: string
    var session: Session
    var header: Header
    var editable: bool
    var baseURL: string
    var pingInterval: int
    var reconnectTimeout: int

    /** `newClient`, reduced to the fields it stores; `id` is the identity it generates. */
    constructor (id: string, addr: string, session: Session, conn: ConnId, editable: bool,
                 baseURL: string, header: Header, pingInterval: int, reconnectTimeout: int)
      ensures this.id == id && this.addr == addr && this.session == session && this.conn == conn
      ensures this.editable == editable && this.baseURL == baseURL && this.header == header
      ensures this.pingInterval == pingInterval && this.reconnectTimeout == reconnectTimeout
      ensures state == Connect
    {
      this.id := id;
      this.addr := addr;
      this.session := session;
      this.conn := conn;
      this.editable := editable;
      this.baseURL := baseURL;
      this.header := header;
      this.pingInterval := pingInterval;
      this.reconnectTimeout := reconnectTimeout;
      state := Connect;
    }

    /**
      Hand a new connection to this client: under its lock, send a close frame on the old
      connection and close it, then install the new connection, mark the client reconnecting and
      record its new address. Nothing else about the client changes.
     */
    method Reattach(newConn: ConnId, newAddr: string) returns (effects: seq<Event>)
      modifies this
      ensures effects == [Locked(id), CloseFrameSent(old(conn)), ConnClosed(old(conn)), Unlocked(id)]
      ensures conn == newConn && state == Reconnect && addr == newAddr
      ensures unchanged(`id, `session, `header, `editable, `baseURL, `pingInterval, `reconnectTimeout)
    {
      effects := [Locked(id), CloseFrameSent(conn), ConnClosed(conn)];
      conn := newConn;
      state := Reconnect;
      addr := newAddr;
      effects := effects + [Unlocked(id)];
    }
  }

  /** The registry of live clients, by id. */
  class Broker {
    var clients: map<string, Client>

    /** `getClient`: the client registered under `id`, if any. */
    function GetClient(id: string): (found: Option<Client>)
      reads this
      ensures found.Some? <==> id in clients
      ensures found.Some? ==> found.value in clients.Values && found.value == clients[id]
    {
      if id in clients then Some(clients[id]) else None
    }
  }

  /** What the handler reads of the client the broker returned: its id and current connection. */
  function AttachedOf(found: Option<Client>): Option<Attached>
    reads if found.Some? then {found.value} else {}
  {
    if found.Some? then Some(Attached(found.value.id, found.value.conn)) else None
  }

  /** The configuration `newSocketServer` receives, less the allowed origins. */
  datatype ServerConf = ServerConf(
    editable: bool,
    baseURL: string,
    forwardedHeaders: Option<map<string, bool>>,
    pingInterval: int,
    reconnectTimeout: int)

  class SocketServer {
    const broker: Broker
    const settings: Settings

    /** `newSocketServer`: keep the broker, whether authentication is configured, and the configuration. */
    constructor (broker: Broker, authConfigured: bool, conf: ServerConf)
      ensures this.broker == broker
      ensures settings == Settings(authConfigured, conf.editable, conf.baseURL, conf.forwardedHeaders,
                                   conf.pingInterval, conf.reconnectTimeout)
    {
      this.broker := broker;
      settings := Settings(authConfigured, conf.editable, conf.baseURL, conf.forwardedHeaders,
                           conf.pingInterval, conf.reconnectTimeout);
    }

    /**
      Handle one websocket upgrade request. `client` is the client the handler ends with (null when
      it stops before reaching one).
     */
    method ServeHTTP(r: Request, c: Collaborators) returns (h: Handled, client: Client?)
      modifies broker.clients.Values
      ensures h == Handshake(settings, c, old(AttachedOf(broker.GetClient(ClientIdParam(r)))))
      ensures broker.clients == old(broker.clients)
      ensures !h.outcome.Reattached? ==> unchanged(broker.clients.Values)
      ensures h.outcome.UpgradeFailed? || h.outcome.Unauthorized? ==> client == null
      ensures h.outcome.Reattached? ==>
        && ClientIdParam(r) in broker.clients
        && client == broker.clients[ClientIdParam(r)]
        && client.conn == c.upgrade.value
        && client.state == Reconnect
        && client.addr == GetRemoteAddr(r)
        && unchanged(client`id, client`session, client`header, client`editable, client`baseURL,
                     client`pingInterval, client`reconnectTimeout)
        && unchanged(broker.clients.Values - {client})
      ensures h.outcome.Fresh? ==>
        && client != null && fresh(client)
        && client.id == c.newId
        && client.conn == c.upgrade.value
        && client.state == Connect
        && client.addr == GetRemoteAddr(r)
        && client.session == SessionOf(settings, c)
        && client.header == ForwardedSnapshot(settings.forwardedHeaders, r.header)
        && client.editable == settings.editable && client.baseURL == settings.baseURL
        && client.pingInterval == settings.pingInterval
        && client.reconnectTimeout == settings.reconnectTimeout
    {
      client := null;
      if c.upgrade.None? {
        h := Handled(UpgradeFailed, []);
        return;
      }
      var conn := c.upgrade.value;

      var session := Anonymous;
      if settings.authConfigured {
        if c.identity.None? {
          var events := [];
          if c.logoutEncodes {
            if !c.writerOpens {
              h := Handled(Unauthorized, [StatusWritten(401)]);
              return;
            }
            events := [TextWritten(conn, Navigate(LogoutURL(settings.baseURL)))];
          }
          h := Handled(Unauthorized, events);
          return;
        }
        session := c.identity.value;
      }

      var header := FilterHeaders(settings.forwardedHeaders, r.header);
      var clientId := ClientIdParam(r);
      var existing := broker.GetClient(clientId);
      var events;
      if existing.Some? {
        client := existing.value;
        events := client.Reattach(conn, GetRemoteAddr(r));
      } else {
        client := new Client(c.newId, GetRemoteAddr(r), session, conn, settings.editable,
                             settings.baseURL, header, settings.pingInterval, settings.reconnectTimeout);
        var id := client.id;
        if !c.helloEncodes {
          h := Handled(Fresh(id, false), [StatusWritten(500)]);
          return;
        }
        if !c.sendAccepts {
          h := Handled(Fresh(id, false), [Sent(id, Hello(id), false), StatusWritten(500)]);
          return;
        }
        events := [Sent(id, Hello(id), true)];
      }

      events := events + [FlushStarted(client.id), ListenStarted(client.id)];
      h := Handled(if existing.Some? then Reattached(client.id) else Fresh(client.id, true), events);
    }
  }

}
