/**
  The client's control-connection handler (TunnelClientDaemonChannelHandler).

  The handler keeps four attributes on its control channel: the tunnel id,
  the session id of the last frame that named one, the tunnel request the
  server confirmed, and the "inactive extra" that tells the state listener
  why the channel went away. It also reads the tunnel connection object
  attached to the channel, whose final request it updates, and it adds and
  removes entries of the local client's table of local channels keyed by
  (tunnel id, session id). Everything it sends, closes or reports is
  appended to an effect log.
*/
module ClientDaemon {
  import opened Wire
  import opened TunnelRequests

  type LocalChannelId = int

  /** The remote user connection described by REMOTE_CONNECTED and REMOTE_DISCONNECT. */
  datatype RemoteConnection = RemoteConnection(address: string)

  /** The messages the handler reads; the error text of RESPONSE_ERR is carried already decoded. */
  datatype ProtoMsg =
    | HeartbeatPing
    | HeartbeatPong
    | ResponseOk(tunnelId: int, data: Bytes)
    | ResponseErr(text: string)
    | Transfer(tunnelId: int, sessionId: int, data: Bytes)
    | RemoteConnected(tunnelId: int, sessionId: int, data: Bytes)
    | RemoteDisconnect(tunnelId: int, sessionId: int, data: Bytes)
    | ForceOff
    | OtherMsg(tag: int)

  /** ChannelInactiveExtra: whether the server forced the client off, and the cause's message. */
  datatype Extra = Extra(forceOff: bool, cause: string)

  datatype Attrs = Attrs(
    tunnelId: Option<int>,
    sessionId: Option<int>,
    tunnelRequest: Option<TunnelRequest>,
    extra: Option<Extra>)

  const NO_ATTRS: Attrs := Attrs(None, None, None, None)

  /** The one field of the attached tunnel connection that the handler writes. */
  datatype Conn = Conn(finalTunnelRequest: Option<TunnelRequest>)

  /** The state one handler call sees: attributes, the attached connection if any, the local-channel table. */
  datatype Client = Client(attrs: Attrs, conn: Option<Conn>, table: map<(int, int), LocalChannelId>)

  datatype Effect =
    | SendPong                                            // HEARTBEAT_PONG on the control channel
    | SendLocalDisconnect(tunnelId: int, sessionId: int)  // LOCAL_DISCONNECT on the control channel
    | SendForceOffReplyThenClose                          // FORCE_OFF_REPLY, then close once written
    | CloseControl                                        // close the control channel
    | FlushThenCloseControl                               // empty write on the control channel, then close
    | NotifyConnected(conn: Option<Conn>)                 // onChannelConnected
    | NotifyInactive(conn: Option<Conn>, extra: Option<Extra>)  // onChannelInactive
    | NotifyRemoteConnected(remote: RemoteConnection)
    | NotifyRemoteDisconnect(remote: RemoteConnection)
    | Acquire(localAddr: string, localPort: int, tunnelId: int, sessionId: int)
    | LocalWrite(local: LocalChannelId, data: Bytes)
    | LocalClose(local: LocalChannelId)
    | LocalFlushThenClose(local: LocalChannelId)

  /**
    What the handler is built with: the two decoders whose source is not
    part of this model, and whether a remote-connection listener was given.
  */
  datatype Collaborators = Collaborators(
    requestFromBytes: Bytes -> Option<TunnelRequest>,
    remoteFromBytes: Bytes -> Option<RemoteConnection>,
    hasRemoteListener: bool)

  /**
    One message, with how acquiring its local channel turns out: the local
    channel that arrived, or `None` when it could not be reached.
  */
  datatype Input = Input(msg: ProtoMsg, arrival: Option<LocalChannelId>)

  datatype Step = Step(client: Client, effects: seq<Effect>)

  const FORCE_OFF_EXTRA: Extra := Extra(true, "ForceOff")

  predicate Acquires(t: TunnelType) {
    t == TCP || t == HTTP || t == HTTPS
  }

  // ---------------------------------------------------------------------------
  // The handler as transitions on values

  function OnResponseOk(col: Collaborators, c: Client, tunnelId: int, data: Bytes): (r: Step)
    ensures r.client.table == c.table && |r.effects| == 1
    ensures r.effects[0] == FlushThenCloseControl <==> col.requestFromBytes(data).None?
    ensures col.requestFromBytes(data).Some? ==>
      && r.client.attrs.tunnelId == Some(tunnelId) && r.client.attrs.sessionId == c.attrs.sessionId
      && r.client.attrs.tunnelRequest == col.requestFromBytes(data) && r.client.attrs.extra.None?
      && (r.client.conn.Some? <==> c.conn.Some?)
  {
    match col.requestFromBytes(data)
    case None => Step(c, [FlushThenCloseControl])
    case Some(req) =>
      var conn' := if c.conn.None? then None else Some(Conn(Some(req)));
      var attrs' := c.attrs.(tunnelId := Some(tunnelId), tunnelRequest := Some(req), extra := None);
      Step(Client(attrs', conn', c.table), [NotifyConnected(conn')])
  }

  function OnResponseErr(c: Client, text: string): (r: Step)
    ensures r.client.conn == c.conn && r.client.table == c.table && r.effects == [CloseControl]
    ensures r.client.attrs.tunnelId.None? && r.client.attrs.tunnelRequest.None?
    ensures r.client.attrs.extra == Some(Extra(false, text)) && r.client.attrs.sessionId == c.attrs.sessionId
  {
    var attrs' := c.attrs.(tunnelId := None, tunnelRequest := None, extra := Some(Extra(false, text)));
    Step(c.(attrs := attrs'), [CloseControl])
  }

  function OnForceOff(c: Client): (r: Step)
    ensures r.client.conn == c.conn && r.client.table == c.table && r.effects == [SendForceOffReplyThenClose]
    ensures r.client.attrs.tunnelId.None? && r.client.attrs.tunnelRequest.None?
    ensures r.client.attrs.extra.Some? && r.client.attrs.extra.value.forceOff
  {
    var attrs' := c.attrs.(tunnelId := None, tunnelRequest := None, extra := Some(FORCE_OFF_EXTRA));
    Step(c.(attrs := attrs'), [SendForceOffReplyThenClose])
  }

  /** acquireLocalChannel: an arrived channel is kept in the table under the frame's ids. */
  function Acquired(c: Client, tunnelId: int, sessionId: int, arrival: Option<LocalChannelId>): Client {
    if arrival.None? then c else c.(table := c.table[(tunnelId, sessionId) := arrival.value])
  }

  function OnTransfer(c: Client, tunnelId: int, sessionId: int, data: Bytes, arrival: Option<LocalChannelId>): (r: Step)
    ensures r.client.attrs == c.attrs.(tunnelId := Some(tunnelId), sessionId := Some(sessionId)) && r.client.conn == c.conn
    ensures c.table.Keys <= r.client.table.Keys <= c.table.Keys + {(tunnelId, sessionId)}
    ensures |r.effects| == 0 || |r.effects| == 2
    ensures forall e :: e in r.effects && e.LocalWrite? ==>
      e.data == data && (tunnelId, sessionId) in r.client.table && r.client.table[(tunnelId, sessionId)] == e.local
  {
    var c1 := c.(attrs := c.attrs.(tunnelId := Some(tunnelId), sessionId := Some(sessionId)));
    var req := c.attrs.tunnelRequest;
    if req.None? || !Acquires(req.value.tunnelType) then Step(c1, [])
    else
      var acquire := Acquire(req.value.localAddr, req.value.localPort, tunnelId, sessionId);
      match arrival
      case Some(local) => Step(Acquired(c1, tunnelId, sessionId, arrival), [acquire, LocalWrite(local, data)])
      case None => Step(c1, [acquire, SendLocalDisconnect(tunnelId, sessionId)])
  }

  function OnRemoteConnected(col: Collaborators, c: Client, tunnelId: int, sessionId: int, data: Bytes,
                             arrival: Option<LocalChannelId>): (r: Step)
    ensures r.client.attrs == c.attrs.(tunnelId := Some(tunnelId), sessionId := Some(sessionId)) && r.client.conn == c.conn
    ensures c.table.Keys <= r.client.table.Keys <= c.table.Keys + {(tunnelId, sessionId)}
    ensures |r.effects| <= 2 && forall e :: e in r.effects ==> e.NotifyRemoteConnected? || e.Acquire?
  {
    var c1 := c.(attrs := c.attrs.(tunnelId := Some(tunnelId), sessionId := Some(sessionId)));
    var remote := col.remoteFromBytes(data);
    var notify := if remote.Some? && col.hasRemoteListener then [NotifyRemoteConnected(remote.value)] else [];
    var req := c.attrs.tunnelRequest;
    if req.None? then Step(c1, notify)
    else
      Step(Acquired(c1, tunnelId, sessionId, arrival),
           notify + [Acquire(req.value.localAddr, req.value.localPort, tunnelId, sessionId)])
  }

  function OnRemoteDisconnect(col: Collaborators, c: Client, tunnelId: int, sessionId: int, data: Bytes): (r: Step)
    ensures r.client.attrs == c.attrs && r.client.conn == c.conn
    ensures r.client.table.Keys == c.table.Keys - {(tunnelId, sessionId)}
    ensures |r.effects| <= 2 && forall e :: e in r.effects ==> e.NotifyRemoteDisconnect? || e.LocalFlushThenClose?
  {
    var remote := col.remoteFromBytes(data);
    var notify := if remote.Some? && col.hasRemoteListener then [NotifyRemoteDisconnect(remote.value)] else [];
    var key := (tunnelId, sessionId);
    var close := if key in c.table then [LocalFlushThenClose(c.table[key])] else [];
    Step(c.(table := c.table - {key}), notify + close)
  }

  /** channelRead0: dispatch on the message type; the other types do nothing. */
  function OnRead(col: Collaborators, c: Client, input: Input): (r: Step)
    ensures !input.msg.ResponseOk? ==> r.client.conn == c.conn
    ensures !(input.msg.ResponseOk? || input.msg.ResponseErr? || input.msg.ForceOff?) ==>
      r.client.attrs.tunnelRequest == c.attrs.tunnelRequest && r.client.attrs.extra == c.attrs.extra
  {
    match input.msg
    case HeartbeatPing => Step(c, [SendPong])
    case ResponseOk(tunnelId, data) => OnResponseOk(col, c, tunnelId, data)
    case ResponseErr(text) => OnResponseErr(c, text)
    case Transfer(tunnelId, sessionId, data) => OnTransfer(c, tunnelId, sessionId, data, input.arrival)
    case RemoteConnected(tunnelId, sessionId, data) => OnRemoteConnected(col, c, tunnelId, sessionId, data, input.arrival)
    case RemoteDisconnect(tunnelId, sessionId, data) => OnRemoteDisconnect(col, c, tunnelId, sessionId, data)
    case ForceOff => OnForceOff(c)
    case _ => Step(c, [])
  }

  /**
    channelInactive: close the local channel of the last (tunnel id,
    session id) when both are set, then report the connection and the extra.
  */
  function OnInactive(c: Client): (r: Step)
    ensures r.client.attrs == c.attrs && r.client.conn == c.conn && r.client.table.Keys <= c.table.Keys
    ensures |r.effects| >= 1 && r.effects[|r.effects| - 1] == NotifyInactive(c.conn, c.attrs.extra)
  {
    var notify := NotifyInactive(c.conn, c.attrs.extra);
    if c.attrs.tunnelId.None? || c.attrs.sessionId.None? then Step(c, [notify])
    else
      var key := (c.attrs.tunnelId.value, c.attrs.sessionId.value);
      var close := if key in c.table then [LocalClose(c.table[key])] else [];
      Step(c.(table := c.table - {key}), close + [notify])
  }

  function OnException(c: Client): (r: Step)
    ensures r.client == c && r.effects == [FlushThenCloseControl]
  {
    Step(c, [FlushThenCloseControl])
  }

  /** The messages of one connection, handled in arrival order. */
  function OnReadAll(col: Collaborators, c: Client, inputs: seq<Input>): Step
    decreases |inputs|
  {
    if inputs == [] then Step(c, [])
    else
      var first := OnRead(col, c, inputs[0]);
      var rest := OnReadAll(col, first.client, inputs[1..]);
      Step(rest.client, first.effects + rest.effects)
  }

  // ---------------------------------------------------------------------------
  // Properties of the transitions

  lemma PingAnswered(col: Collaborators, c: Client, arrival: Option<LocalChannelId>)
    ensures OnRead(col, c, Input(HeartbeatPing, arrival)) == Step(c, [SendPong])
  {
  }

  /**
    RESPONSE_OK whose data decodes to a request records the tunnel id and
    the request, clears the extra, gives the attached connection the request
    as its final one, and reports the connection. Data that does not decode
    changes nothing and closes the channel.
  */
  lemma ResponseOkOpens(col: Collaborators, c: Client, tunnelId: int, data: Bytes, arrival: Option<LocalChannelId>)
    ensures var r := OnRead(col, c, Input(ResponseOk(tunnelId, data), arrival));
      match col.requestFromBytes(data)
      case None => r == Step(c, [FlushThenCloseControl])
      case Some(req) =>
        && r.client.attrs == Attrs(Some(tunnelId), c.attrs.sessionId, Some(req), None)
        && r.client.table == c.table
        && (c.conn.None? ==> r.client.conn.None?)
        && (c.conn.Some? ==> r.client.conn == Some(Conn(Some(req))))
        && r.effects == [NotifyConnected(r.client.conn)]
  {
  }

  /** RESPONSE_ERR forgets the tunnel, records a non-forced extra with the error text, and closes. */
  lemma ResponseErrCloses(col: Collaborators, c: Client, text: string, arrival: Option<LocalChannelId>)
    ensures var r := OnRead(col, c, Input(ResponseErr(text), arrival));
      && r.client.attrs == Attrs(None, c.attrs.sessionId, None, Some(Extra(false, text)))
      && r.client.conn == c.conn && r.client.table == c.table
      && r.effects == [CloseControl]
  {
  }

  /** FORCE_OFF forgets the tunnel, records a forced extra, and replies FORCE_OFF_REPLY before closing. */
  lemma ForceOffCloses(col: Collaborators, c: Client, arrival: Option<LocalChannelId>)
    ensures var r := OnRead(col, c, Input(ForceOff, arrival));
      && r.client.attrs == Attrs(None, c.attrs.sessionId, None, Some(Extra(true, "ForceOff")))
      && r.client.conn == c.conn && r.client.table == c.table
      && r.effects == [SendForceOffReplyThenClose]
  {
  }

  /**
    TRANSFER always records both ids. It acquires the local channel of the
    stored request exactly when that request is TCP, HTTP or HTTPS; the data
    goes to the channel that arrives, and when none does the server is told
    LOCAL_DISCONNECT for the same ids.
  */
  lemma TransferRouting(c: Client, tunnelId: int, sessionId: int, data: Bytes, arrival: Option<LocalChannelId>)
    ensures var r := OnTransfer(c, tunnelId, sessionId, data, arrival);
      var req := c.attrs.tunnelRequest;
      var acquires := req.Some? && req.value.tunnelType in {TCP, HTTP, HTTPS};
      && r.client.attrs == c.attrs.(tunnelId := Some(tunnelId), sessionId := Some(sessionId))
      && r.client.conn == c.conn
      && (!acquires ==> r.effects == [] && r.client.table == c.table)
      && (acquires && arrival.Some? ==>
            && r.effects == [Acquire(req.value.localAddr, req.value.localPort, tunnelId, sessionId), LocalWrite(arrival.value, data)]
            && r.client.table == c.table[(tunnelId, sessionId) := arrival.value])
      && (acquires && arrival.None? ==>
            && r.effects == [Acquire(req.value.localAddr, req.value.localPort, tunnelId, sessionId), SendLocalDisconnect(tunnelId, sessionId)]
            && r.client.table == c.table)
  {
  }

  /**
    REMOTE_CONNECTED never fails on connection data it cannot decode: it then
    reports nothing. It acquires a local channel exactly when a request is
    stored, whatever its type.
  */
  lemma RemoteConnectedTolerant(col: Collaborators, c: Client, tunnelId: int, sessionId: int, data: Bytes,
                                arrival: Option<LocalChannelId>)
    ensures var r := OnRemoteConnected(col, c, tunnelId, sessionId, data, arrival);
      var req := c.attrs.tunnelRequest;
      && r.client.attrs == c.attrs.(tunnelId := Some(tunnelId), sessionId := Some(sessionId))
      && (col.remoteFromBytes(data).None? ==> forall e :: e in r.effects ==> e.Acquire?)
      && (req.None? ==> forall e :: e in r.effects ==> !e.Acquire?)
      && (req.Some? ==> r.effects[|r.effects| - 1] == Acquire(req.value.localAddr, req.value.localPort, tunnelId, sessionId))
      && r.client.table == (if req.Some? && arrival.Some? then c.table[(tunnelId, sessionId) := arrival.value] else c.table)
  {
  }

  /**
    REMOTE_DISCONNECT removes exactly the frame's entry from the table and
    flushes and closes that local channel when it was there; no other entry
    changes and the attributes are left alone.
  */
  lemma RemoteDisconnectRemovesOne(col: Collaborators, c: Client, tunnelId: int, sessionId: int, data: Bytes)
    ensures var r := OnRemoteDisconnect(col, c, tunnelId, sessionId, data);
      var key := (tunnelId, sessionId);
      && r.client.attrs == c.attrs && r.client.conn == c.conn
      && key !in r.client.table
      && (forall k :: k != key ==> (k in r.client.table <==> k in c.table))
      && (forall k :: k != key && k in c.table ==> r.client.table[k] == c.table[k])
      && (key in c.table ==> LocalFlushThenClose(c.table[key]) in r.effects)
      && (key !in c.table ==> forall e :: e in r.effects ==> !e.LocalFlushThenClose?)
  {
  }

  /**
    Disconnect closes the local channel of the recorded ids only when both
    are set, and always reports the connection and the extra, once, last.
  */
  lemma InactiveCleanup(c: Client)
    ensures var r := OnInactive(c);
      && r.client.attrs == c.attrs && r.client.conn == c.conn
      && |r.effects| >= 1 && r.effects[|r.effects| - 1] == NotifyInactive(c.conn, c.attrs.extra)
      && (forall i :: 0 <= i < |r.effects| - 1 ==> r.effects[i].LocalClose?)
      && (c.attrs.tunnelId.None? || c.attrs.sessionId.None? ==> r.client.table == c.table && |r.effects| == 1)
      && (c.attrs.tunnelId.Some? && c.attrs.sessionId.Some? ==>
            var key := (c.attrs.tunnelId.value, c.attrs.sessionId.value);
            && r.client.table == c.table - {key}
            && r.effects == (if key in c.table then [LocalClose(c.table[key])] else [])
                            + [NotifyInactive(c.conn, c.attrs.extra)])
  {
  }

  /** After RESPONSE_ERR the disconnect that follows reports a non-forced extra carrying the server's text. */
  lemma ErrorReportedOnInactive(col: Collaborators, c: Client, text: string, arrival: Option<LocalChannelId>)
    ensures var after := OnRead(col, c, Input(ResponseErr(text), arrival)).client;
      var r := OnInactive(after);
      r.effects[|r.effects| - 1] == NotifyInactive(c.conn, Some(Extra(false, text)))
  {
  }

  /** A message that confirms, refuses or ends a tunnel: the only ones that set the extra. */
  predicate Resets(col: Collaborators, msg: ProtoMsg) {
    || (msg.ResponseOk? && col.requestFromBytes(msg.data).Some?)
    || msg.ResponseErr?
  }

  /**
    After FORCE_OFF, until a RESPONSE_OK that decodes or a RESPONSE_ERR
    arrives, the extra stays "forced off", no request is stored and no local
    channel is ever acquired, whatever TRANSFER and REMOTE_CONNECTED frames
    come in.
  */
  lemma {:induction false} ForceOffSticks(col: Collaborators, c: Client, inputs: seq<Input>)
    requires c.attrs.tunnelRequest.None? && c.attrs.extra == Some(FORCE_OFF_EXTRA)
    requires forall i :: 0 <= i < |inputs| ==> !Resets(col, inputs[i].msg)
    ensures var r := OnReadAll(col, c, inputs);
      && r.client.attrs.tunnelRequest.None? && r.client.attrs.extra == Some(FORCE_OFF_EXTRA)
      && forall e :: e in r.effects ==> !e.Acquire? && !e.LocalWrite?
    decreases |inputs|
  {
    if inputs != [] {
      var first := OnRead(col, c, inputs[0]);
      assert !Resets(col, inputs[0].msg);
      assert first.client.attrs.tunnelRequest.None? && first.client.attrs.extra == Some(FORCE_OFF_EXTRA);
      assert forall e :: e in first.effects ==> !e.Acquire? && !e.LocalWrite?;
      ForceOffSticks(col, first.client, inputs[1..]);
    }
  }

  // ---------------------------------------------------------------------------
  // The collaborators and the handler as objects

  /** TunnelConnImpl: the handler writes only its final request. */
  class TunnelConn {
    var finalTunnelRequest: Option<TunnelRequest>

    constructor ()
      ensures finalTunnelRequest.None?
    {
      finalTunnelRequest := None;
    }
  }

  /** LocalTcpClient's table of local channels by (tunnel id, session id). */
  class LocalTcpClient {
    var table: map<(int, int), LocalChannelId>

    constructor ()
      ensures table == map[]
    {
      table := map[];
    }

    /** acquireLocalChannel: an arrived channel is kept under the ids. */
    method AcquireLocalChannel(tunnelId: int, sessionId: int, arrival: Option<LocalChannelId>)
      modifies this
      ensures arrival.Some? ==> table == old(table)[(tunnelId, sessionId) := arrival.value]
      ensures arrival.None? ==> table == old(table)
    {
      if arrival.Some? {
        table := table[(tunnelId, sessionId) := arrival.value];
      }
    }

    /** removeLocalChannel: the entry's channel, now gone from the table, or `None`. */
    method RemoveLocalChannel(tunnelId: int, sessionId: int) returns (removed: Option<LocalChannelId>)
      modifies this
      ensures (tunnelId, sessionId) in old(table) ==> removed == Some(old(table)[(tunnelId, sessionId)])
      ensures (tunnelId, sessionId) !in old(table) ==> removed.None?
      ensures table == old(table) - {(tunnelId, sessionId)}
    {
      var key := (tunnelId, sessionId);
      removed := if key in table then Some(table[key]) else None;
      table := table - {key};
    }
  }

  class ClientDaemonHandler {
    const localClient: LocalTcpClient
    const conn: TunnelConn?
    const col: Collaborators
    var tunnelId: Option<int>
    var sessionId: Option<int>
    var tunnelRequest: Option<TunnelRequest>
    var extra: Option<Extra>
    var effects: seq<Effect>

    function Attributes(): Attrs
      reads this
    {
      Attrs(tunnelId, sessionId, tunnelRequest, extra)
    }

    function Value(): Client
      reads this, localClient, conn
    {
      Client(Attributes(), if conn == null then None else Some(Conn(conn.finalTunnelRequest)), localClient.table)
    }

    constructor (localClient: LocalTcpClient, conn: TunnelConn?, col: Collaborators)
      ensures this.localClient == localClient && this.conn == conn && this.col == col
      ensures Attributes() == NO_ATTRS && effects == []
    {
      this.localClient, this.conn, this.col := localClient, conn, col;
      tunnelId, sessionId, tunnelRequest, extra := None, None, None, None;
      effects := [];
    }

    /** channelRead0 */
    method ChannelRead(input: Input)
      modifies this, localClient, conn
      ensures var r := OnRead(col, old(Value()), input);
        Value() == r.client && effects == old(effects) + r.effects
    {
      match input.msg
      case HeartbeatPing =>
        effects := effects + [SendPong];
      case ResponseOk(tid, data) => HandleResponseOk(tid, data);
      case ResponseErr(text) => HandleResponseErr(text);
      case Transfer(tid, sid, data) => HandleTransfer(tid, sid, data, input.arrival);
      case RemoteConnected(tid, sid, data) => HandleRemoteConnected(tid, sid, data, input.arrival);
      case RemoteDisconnect(tid, sid, data) => HandleRemoteDisconnect(tid, sid, data);
      case ForceOff => HandleForceOff();
      case _ =>
    }

    method HandleResponseOk(tid: int, data: Bytes)
      modifies this, conn
      ensures var r := OnResponseOk(col, old(Value()), tid, data);
        Value() == r.client && effects == old(effects) + r.effects
    {
      var parsed := col.requestFromBytes(data);
      if parsed.None? {
        ExceptionCaught();
        return;
      }
      var req := parsed.value;
      tunnelId := Some(tid);
      tunnelRequest := Some(req);
      extra := None;
      if conn != null {
        conn.finalTunnelRequest := Some(req);
      }
      var current := if conn == null then None else Some(Conn(conn.finalTunnelRequest));
      effects := effects + [NotifyConnected(current)];
    }

    method HandleResponseErr(text: string)
      modifies this
      ensures var r := OnResponseErr(old(Value()), text);
        Value() == r.client && effects == old(effects) + r.effects
    {
      tunnelId := None;
      tunnelRequest := None;
      extra := Some(Extra(false, text));
      effects := effects + [CloseControl];
    }

    method HandleTransfer(tid: int, sid: int, data: Bytes, arrival: Option<LocalChannelId>)
      modifies this, localClient
      ensures var r := OnTransfer(old(Value()), tid, sid, data, arrival);
        Value() == r.client && effects == old(effects) + r.effects
    {
      tunnelId := Some(tid);
      sessionId := Some(sid);
      if tunnelRequest.Some? && Acquires(tunnelRequest.value.tunnelType) {
        var req := tunnelRequest.value;
        effects := effects + [Acquire(req.localAddr, req.localPort, tid, sid)];
        localClient.AcquireLocalChannel(tid, sid, arrival);
        if arrival.Some? {
          effects := effects + [LocalWrite(arrival.value, data)];
        } else {
          effects := effects + [SendLocalDisconnect(tid, sid)];
        }
      }
    }

    method HandleRemoteConnected(tid: int, sid: int, data: Bytes, arrival: Option<LocalChannelId>)
      modifies this, localClient
      ensures var r := OnRemoteConnected(col, old(Value()), tid, sid, data, arrival);
        Value() == r.client && effects == old(effects) + r.effects
    {
      tunnelId := Some(tid);
      sessionId := Some(sid);
      var remote := col.remoteFromBytes(data);
      if remote.Some? && col.hasRemoteListener {
        effects := effects + [NotifyRemoteConnected(remote.value)];
      }
      if tunnelRequest.Some? {
        var req := tunnelRequest.value;
        effects := effects + [Acquire(req.localAddr, req.localPort, tid, sid)];
        localClient.AcquireLocalChannel(tid, sid, arrival);
      }
    }

    method HandleRemoteDisconnect(tid: int, sid: int, data: Bytes)
      modifies this, localClient
      ensures var r := OnRemoteDisconnect(col, old(Value()), tid, sid, data);
        Value() == r.client && effects == old(effects) + r.effects
    {
      var remote := col.remoteFromBytes(data);
      if remote.Some? && col.hasRemoteListener {
        effects := effects + [NotifyRemoteDisconnect(remote.value)];
      }
      var removed := localClient.RemoveLocalChannel(tid, sid);
      if removed.Some? {
        effects := effects + [LocalFlushThenClose(removed.value)];
      }
    }

    method HandleForceOff()
      modifies this
      ensures var r := OnForceOff(old(Value()));
        Value() == r.client && effects == old(effects) + r.effects
    {
      tunnelId := None;
      tunnelRequest := None;
      extra := Some(FORCE_OFF_EXTRA);
      effects := effects + [SendForceOffReplyThenClose];
    }

    /** channelInactive */
    method ChannelInactive()
      modifies this, localClient
      ensures var r := OnInactive(old(Value()));
        Value() == r.client && effects == old(effects) + r.effects
    {
      if tunnelId.Some? && sessionId.Some? {
        var removed := localClient.RemoveLocalChannel(tunnelId.value, sessionId.value);
        if removed.Some? {
          effects := effects + [LocalClose(removed.value)];
        }
      }
      var current := if conn == null then None else Some(Conn(conn.finalTunnelRequest));
      effects := effects + [NotifyInactive(current, extra)];
    }

    /** exceptionCaught */
    method ExceptionCaught()
      modifies this
      ensures Value() == old(Value())
      ensures effects == old(effects) + OnException(old(Value())).effects
    {
      effects := effects + [FlushThenCloseControl];
    }
  }
}
