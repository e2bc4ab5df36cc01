/**
  The control-connection handler of the relay server, TCP/HTTP-aware variant
  (tunnel-server TunnelServerChannelHandler).

  One handler serves one control connection. Its only state is the
  connection's slot for the ServerTunnelSessions record of the tunnel it
  opened. The process-wide collaborators are the TCP directory (tunnels by
  token, each bound to a public port), the HTTP directory (tunnels by virtual
  host), the session channels of each tunnel, and the token producer.
  Everything the handler sends, writes or closes is appended to an effect log.
*/
module TunnelServer {
  import opened Wire

  type ChannelId = int

  datatype Proto = TCP | HTTP | OtherProto(tag: int)

  /** The open request: its protocol and the fields the handler reads. */
  datatype ProtoRequest = ProtoRequest(proto: Proto, localAddr: string, localPort: int, remotePort: int, vhost: string)

  datatype MessageType =
    | HEARTBEAT_PING
    | HEARTBEAT_PONG
    | REQUEST
    | RESPONSE
    | TRANSFER
    | LOCAL_CONNECTED
    | LOCAL_DISCONNECT

  datatype ProtoMessage = ProtoMessage(mtype: MessageType, head: Bytes, data: Payload)

  /** ServerTunnelSessions: the minted token, the admitted request and the control channel. */
  datatype Sessions = Sessions(tunnelToken: int, request: ProtoRequest, control: ChannelId)

  /** A TCP directory entry: the public port and the tunnel bound to it. */
  datatype TcpTunnel = TcpTunnel(port: int, sessions: Sessions)

  /**
    The process-wide state the handler reads and changes: TCP tunnels by
    token, HTTP tunnels by virtual host, the downstream channel of each
    (tunnel token, session token) pair, and the next token to mint.
  */
  datatype Directory = Directory(
    tcp: map<int, TcpTunnel>,
    http: map<string, Sessions>,
    sessionChannels: map<(int, int), ChannelId>,
    nextToken: int)

  /** What a handler call does to the outside world, in order. */
  datatype Effect =
    | Write(target: ChannelId, msg: ProtoMessage)           // writeAndFlush
    | WriteThenClose(target: ChannelId, msg: ProtoMessage)  // writeAndFlush, then close once written
    | Forward(target: ChannelId, data: Payload)             // raw bytes to a downstream channel
    | FlushThenClose(target: ChannelId)                     // empty write, then close once written

  /**
    What the handler is built with and does not define: the request codec
    (ProtoRequest.fromBytes, failing with an exception, and toBytes) and the
    request interceptor (failing with a ProtoException and its message).
  */
  datatype Collaborators = Collaborators(
    fromBytes: Bytes -> Option<ProtoRequest>,
    toBytes: ProtoRequest -> Bytes,
    proceed: ProtoRequest -> Result<ProtoRequest, string>)

  /** One incoming message together with what binding a public TCP port would do. */
  datatype Input = Input(msg: ProtoMessage, listenOk: bool, bindError: string)

  datatype Step = Step(slot: Option<Sessions>, dir: Directory, effects: seq<Effect>)

  // ---------------------------------------------------------------------------
  // Messages the handler sends

  const PONG: ProtoMessage := ProtoMessage(HEARTBEAT_PONG, [], EMPTY)

  /** "协议错误", the reply to an unknown protocol. */
  const PROTOCOL_ERROR: string := "\U{534F}\U{8BAE}\U{9519}\U{8BEF}"

  function VhostUsedMessage(vhost: string): string {
    "vhost(" + vhost + ") already used"
  }

  /** RESPONSE for an admitted tunnel: head [1] + the token as a long; data the request's bytes. */
  function SuccessResponse(token: int, request: Bytes): (m: ProtoMessage)
    ensures m.mtype == RESPONSE && |m.head| == 9 && m.head[0] == 1 && m.head[1..] == EncodeLong(token)
    ensures m.data == Raw(request)
  {
    ProtoMessage(RESPONSE, [1 as byte] + EncodeLong(token), Raw(request))
  }

  /** RESPONSE for a refused request: head [0]; data the error text. */
  function FailureResponse(text: string): (m: ProtoMessage)
    ensures m.mtype == RESPONSE && m.head == [0] && m.data == Utf8(text)
  {
    ProtoMessage(RESPONSE, [0 as byte], Utf8(text))
  }

  // ---------------------------------------------------------------------------
  // Directory queries

  predicate PortHeld(d: Directory, port: int) {
    exists t :: t in d.tcp && d.tcp[t].port == port
  }

  predicate HttpHasToken(d: Directory, token: int) {
    exists v :: v in d.http && d.http[v].tunnelToken == token
  }

  /** getSessionChannel on the tunnel with this token. */
  function SessionChannel(d: Directory, tunnelToken: int, sessionToken: int): Option<ChannelId> {
    if (tunnelToken, sessionToken) in d.sessionChannels then Some(d.sessionChannels[(tunnelToken, sessionToken)]) else None
  }

  /** Every live token, in either directory. */
  ghost function LiveTokens(d: Directory): set<int> {
    d.tcp.Keys + set v | v in d.http :: d.http[v].tunnelToken
  }

  /**
    The directory invariant: a TCP entry sits under its own token, an HTTP
    entry under its own virtual host, no two entries share a token or a
    port, and every live token is below the counter.
  */
  ghost predicate Valid(d: Directory) {
    && (forall t :: t in d.tcp ==> d.tcp[t].sessions.tunnelToken == t && t < d.nextToken)
    && (forall v :: v in d.http ==> d.http[v].request.vhost == v && d.http[v].tunnelToken < d.nextToken)
    && (forall t1, t2 :: t1 in d.tcp && t2 in d.tcp && t1 != t2 ==> d.tcp[t1].port != d.tcp[t2].port)
    && (forall v1, v2 :: v1 in d.http && v2 in d.http && v1 != v2 ==> d.http[v1].tunnelToken != d.http[v2].tunnelToken)
    && (forall v :: v in d.http ==> d.http[v].tunnelToken !in d.tcp)
  }

  /** A slot holds a record minted by the token producer. */
  ghost predicate SlotValid(slot: Option<Sessions>, d: Directory) {
    slot.Some? ==> slot.value.tunnelToken < d.nextToken
  }

  // ---------------------------------------------------------------------------
  // The handler as transitions on values

  function OnPing(slot: Option<Sessions>, d: Directory, ch: ChannelId): Step {
    Step(slot, d, [Write(ch, PONG)])
  }

  /** The TCP branch after the interceptor admitted `req`. */
  function OpenTcp(col: Collaborators, slot: Option<Sessions>, d: Directory, ch: ChannelId, req: ProtoRequest,
                   listenOk: bool, bindError: string): (r: Step)
    ensures r.slot == Some(Sessions(d.nextToken, req, ch)) && r.dir.nextToken == d.nextToken + 1
    ensures r.dir.http == d.http && r.dir.sessionChannels == d.sessionChannels
    ensures |r.effects| == 1 && r.effects[0].target == ch
    ensures r.effects[0].Write? <==> !PortHeld(d, req.remotePort) && listenOk
    ensures r.effects[0].Write? ==> r.dir.tcp == d.tcp[d.nextToken := TcpTunnel(req.remotePort, r.slot.value)]
    ensures !r.effects[0].Write? ==> r.dir.tcp == d.tcp && r.effects[0] == WriteThenClose(ch, FailureResponse(bindError))
  {
    var token := d.nextToken;
    var sessions := Sessions(token, req, ch);
    var minted := d.(nextToken := token + 1);
    if PortHeld(d, req.remotePort) || !listenOk then
      Step(Some(sessions), minted, [WriteThenClose(ch, FailureResponse(bindError))])
    else
      Step(Some(sessions), minted.(tcp := d.tcp[token := TcpTunnel(req.remotePort, sessions)]),
           [Write(ch, SuccessResponse(token, col.toBytes(req)))])
  }

  /** The HTTP branch after the interceptor admitted `req`. */
  function OpenHttp(col: Collaborators, slot: Option<Sessions>, d: Directory, ch: ChannelId, req: ProtoRequest): (r: Step)
    ensures r.dir.tcp == d.tcp && r.dir.sessionChannels == d.sessionChannels
    ensures |r.effects| == 1 && r.effects[0].target == ch
    ensures r.effects[0].Write? <==> req.vhost !in d.http
    ensures r.effects[0].Write? ==>
      && r.slot == Some(Sessions(d.nextToken, req, ch))
      && r.dir.http == d.http[req.vhost := r.slot.value] && r.dir.nextToken == d.nextToken + 1
    ensures !r.effects[0].Write? ==> r.slot == slot && r.dir == d
  {
    if req.vhost in d.http then
      Step(slot, d, [WriteThenClose(ch, FailureResponse(VhostUsedMessage(req.vhost)))])
    else
      var token := d.nextToken;
      var sessions := Sessions(token, req, ch);
      Step(Some(sessions), d.(http := d.http[req.vhost := sessions], nextToken := token + 1),
           [Write(ch, SuccessResponse(token, col.toBytes(req)))])
  }

  /**
    REQUEST. A head the codec cannot read throws outside the handler's own
    try blocks and ends in exceptionCaught.
  */
  function OnRequest(col: Collaborators, slot: Option<Sessions>, d: Directory, ch: ChannelId, head: Bytes,
                     listenOk: bool, bindError: string): (r: Step)
    ensures |r.effects| == 1 && r.effects[0].target == ch && r.dir.sessionChannels == d.sessionChannels
    ensures r.effects[0].FlushThenClose? <==> col.fromBytes(head).None?
    ensures r.effects[0].Write? ==>
      && r.slot.Some? && r.slot.value.tunnelToken == d.nextToken && r.slot.value.control == ch
      && r.dir.nextToken == d.nextToken + 1
      && r.effects[0].msg.mtype == RESPONSE && r.effects[0].msg.head == [1 as byte] + EncodeLong(d.nextToken)
    ensures !r.effects[0].Write? ==> r.dir.tcp == d.tcp && r.dir.http == d.http
    ensures r.dir.nextToken == d.nextToken || r.dir.nextToken == d.nextToken + 1
  {
    match col.fromBytes(head)
    case None => Step(slot, d, [FlushThenClose(ch)])
    case Some(sent) =>
      match sent.proto
      case TCP =>
        (match col.proceed(sent)
         case Err(e) => Step(slot, d, [WriteThenClose(ch, FailureResponse(e))])
         case Ok(req) => OpenTcp(col, slot, d, ch, req, listenOk, bindError))
      case HTTP =>
        (match col.proceed(sent)
         case Err(e) => Step(slot, d, [WriteThenClose(ch, FailureResponse(e))])
         case Ok(req) => OpenHttp(col, slot, d, ch, req))
      case OtherProto(_) => Step(slot, d, [WriteThenClose(ch, FailureResponse(PROTOCOL_ERROR))])
  }

  /**
    TRANSFER. Without a slot nothing is read. Otherwise the tunnel named by
    the frame's tunnel token is looked up in the directory of the slot's
    protocol, then its channel for the session token; a short head throws.
  */
  function OnTransfer(slot: Option<Sessions>, d: Directory, ch: ChannelId, head: Bytes, data: Payload): (r: Step)
    ensures r.slot == slot && r.dir == d && |r.effects| <= 1
    ensures slot.None? ==> r.effects == []
    ensures slot.Some? && ReadTokens(head).None? ==> r.effects == [FlushThenClose(ch)]
    ensures forall e :: e in r.effects ==>
      e == FlushThenClose(ch) || (e.Forward? && e.data == data && e.target in d.sessionChannels.Values)
  {
    if slot.None? then Step(slot, d, [])
    else
      match ReadTokens(head)
      case None => Step(slot, d, [FlushThenClose(ch)])
      case Some((tunnelToken, sessionToken)) =>
        var found := match slot.value.request.proto
          case TCP => tunnelToken in d.tcp
          case HTTP => HttpHasToken(d, tunnelToken)
          case OtherProto(_) => false;
        var target := if found then SessionChannel(d, tunnelToken, sessionToken) else None;
        match target
        case None => Step(slot, d, [])
        case Some(c) => Step(slot, d, [Forward(c, data)])
  }

  /**
    LOCAL_DISCONNECT. The head is read first (a short head throws), then the
    session token is looked up in the slot's own tunnel; the tunnel token in
    the frame plays no part.
  */
  function OnLocalDisconnect(slot: Option<Sessions>, d: Directory, ch: ChannelId, head: Bytes): (r: Step)
    ensures r.slot == slot && r.dir == d && |r.effects| <= 1
    ensures ReadTokens(head).None? ==> r.effects == [FlushThenClose(ch)]
    ensures ReadTokens(head).Some? && r.effects != [] ==>
      && slot.Some? && (slot.value.tunnelToken, ReadTokens(head).value.1) in d.sessionChannels
      && r.effects == [FlushThenClose(d.sessionChannels[(slot.value.tunnelToken, ReadTokens(head).value.1)])]
  {
    match ReadTokens(head)
    case None => Step(slot, d, [FlushThenClose(ch)])
    case Some((_, sessionToken)) =>
      if slot.None? then Step(slot, d, [])
      else
        match SessionChannel(d, slot.value.tunnelToken, sessionToken)
        case None => Step(slot, d, [])
        case Some(c) => Step(slot, d, [FlushThenClose(c)])
  }

  /** channelRead0: dispatch on the type; LOCAL_CONNECTED and the other types do nothing. */
  function OnRead(col: Collaborators, slot: Option<Sessions>, d: Directory, ch: ChannelId, input: Input): (r: Step)
    ensures |r.effects| <= 1 && r.dir.sessionChannels == d.sessionChannels
    ensures input.msg.mtype != REQUEST ==> r.slot == slot && r.dir == d
    ensures input.msg.mtype == REQUEST ==> |r.effects| == 1 && r.effects[0].target == ch
  {
    var msg := input.msg;
    match msg.mtype
    case HEARTBEAT_PING => OnPing(slot, d, ch)
    case REQUEST => OnRequest(col, slot, d, ch, msg.head, input.listenOk, input.bindError)
    case TRANSFER => OnTransfer(slot, d, ch, msg.head, msg.data)
    case LOCAL_CONNECTED => Step(slot, d, [])
    case LOCAL_DISCONNECT => OnLocalDisconnect(slot, d, ch, msg.head)
    case _ => Step(slot, d, [])
  }

  /**
    channelInactive: release the slot's tunnel by token (TCP) or by virtual
    host (HTTP), then clear the slot.
  */
  function OnInactive(slot: Option<Sessions>, d: Directory): (r: Step)
    ensures r.slot.None? && r.effects == [] && r.dir.nextToken == d.nextToken && r.dir.sessionChannels == d.sessionChannels
    ensures r.dir.tcp.Keys <= d.tcp.Keys && r.dir.http.Keys <= d.http.Keys
    ensures slot.Some? && slot.value.request.proto == TCP ==> slot.value.tunnelToken !in r.dir.tcp
    ensures slot.Some? && slot.value.request.proto == HTTP ==> slot.value.request.vhost !in r.dir.http
  {
    var d' := if slot.None? then d
      else match slot.value.request.proto
        case TCP => d.(tcp := d.tcp - {slot.value.tunnelToken})
        case HTTP => d.(http := d.http - {slot.value.request.vhost})
        case OtherProto(_) => d;
    Step(None, d', [])
  }

  function OnException(slot: Option<Sessions>, d: Directory, ch: ChannelId): (r: Step)
    ensures r.slot == slot && r.dir == d && r.effects == [FlushThenClose(ch)]
  {
    Step(slot, d, [FlushThenClose(ch)])
  }

  /** The messages of one connection, handled in arrival order. */
  function OnReadAll(col: Collaborators, slot: Option<Sessions>, d: Directory, ch: ChannelId, inputs: seq<Input>): Step
    decreases |inputs|
  {
    if inputs == [] then Step(slot, d, [])
    else
      var first := OnRead(col, slot, d, ch, inputs[0]);
      var rest := OnReadAll(col, first.slot, first.dir, ch, inputs[1..]);
      Step(rest.slot, rest.dir, first.effects + rest.effects)
  }

  // ---------------------------------------------------------------------------
  // Properties of the transitions

  /** Each HEARTBEAT_PING gets one HEARTBEAT_PONG and changes nothing. */
  lemma PingAnswered(col: Collaborators, slot: Option<Sessions>, d: Directory, ch: ChannelId, input: Input)
    requires input.msg.mtype == HEARTBEAT_PING
    ensures OnRead(col, slot, d, ch, input) == Step(slot, d, [Write(ch, ProtoMessage(HEARTBEAT_PONG, [], EMPTY))])
  {
  }

  function Pongs(ch: ChannelId, n: nat): (r: seq<Effect>)
    ensures |r| == n && forall i :: 0 <= i < n ==> r[i] == Write(ch, PONG)
  {
    if n == 0 then [] else Pongs(ch, n - 1) + [Write(ch, PONG)]
  }

  /** N pings in a row yield exactly N pongs, in order, and no change of state. */
  lemma {:induction false} PingsAnswered(col: Collaborators, slot: Option<Sessions>, d: Directory, ch: ChannelId, inputs: seq<Input>)
    requires forall i :: 0 <= i < |inputs| ==> inputs[i].msg.mtype == HEARTBEAT_PING
    ensures OnReadAll(col, slot, d, ch, inputs) == Step(slot, d, Pongs(ch, |inputs|))
    decreases |inputs|
  {
    if inputs != [] {
      PingsAnswered(col, slot, d, ch, inputs[1..]);
      var rest := Pongs(ch, |inputs| - 1);
      assert [Write(ch, PONG)] + rest == Pongs(ch, |inputs|);
    }
  }

  /**
    A TCP open that the interceptor admits as `req`, on a port no tunnel
    holds and that can be bound, fills the slot with a record carrying a
    fresh token and `req`, binds the port, and answers RESPONSE with head
    [1] + the token (8 bytes big-endian) and data the bytes of `req`.
  */
  lemma OpenTcpSucceeds(col: Collaborators, slot: Option<Sessions>, d: Directory, ch: ChannelId, head: Bytes,
                        sent: ProtoRequest, req: ProtoRequest, bindError: string)
    requires Valid(d)
    requires col.fromBytes(head) == Some(sent) && sent.proto == TCP && col.proceed(sent) == Ok(req)
    requires !PortHeld(d, req.remotePort)
    ensures var r := OnRequest(col, slot, d, ch, head, true, bindError);
      var token := d.nextToken;
      && token !in LiveTokens(d)
      && r.slot == Some(Sessions(token, req, ch))
      && r.dir.tcp == d.tcp[token := TcpTunnel(req.remotePort, Sessions(token, req, ch))]
      && r.dir.http == d.http && r.dir.nextToken == token + 1 && r.dir.sessionChannels == d.sessionChannels
      && |r.effects| == 1 && r.effects[0].Write? && r.effects[0].target == ch
      && r.effects[0].msg.mtype == RESPONSE && |r.effects[0].msg.head| == 9 && r.effects[0].msg.head[0] == 1
      && (IsLong(token) ==> DecodeLong(r.effects[0].msg.head[1..]) == token)
      && r.effects[0].msg.data == Raw(col.toBytes(req))
  {
    var token := d.nextToken;
    if IsLong(token) {
      DecodeEncodeLong(token);
    }
    assert token !in LiveTokens(d);
  }

  /** The same for an HTTP open on a virtual host no tunnel holds. */
  lemma OpenHttpSucceeds(col: Collaborators, slot: Option<Sessions>, d: Directory, ch: ChannelId, head: Bytes,
                         sent: ProtoRequest, req: ProtoRequest, listenOk: bool, bindError: string)
    requires Valid(d)
    requires col.fromBytes(head) == Some(sent) && sent.proto == HTTP && col.proceed(sent) == Ok(req)
    requires req.vhost !in d.http
    ensures var r := OnRequest(col, slot, d, ch, head, listenOk, bindError);
      var token := d.nextToken;
      && token !in LiveTokens(d)
      && r.slot == Some(Sessions(token, req, ch))
      && r.dir.http == d.http[req.vhost := Sessions(token, req, ch)]
      && r.dir.tcp == d.tcp && r.dir.nextToken == token + 1 && r.dir.sessionChannels == d.sessionChannels
      && |r.effects| == 1 && r.effects[0].Write? && r.effects[0].target == ch
      && r.effects[0].msg.mtype == RESPONSE && |r.effects[0].msg.head| == 9 && r.effects[0].msg.head[0] == 1
      && (IsLong(token) ==> DecodeLong(r.effects[0].msg.head[1..]) == token)
      && r.effects[0].msg.data == Raw(col.toBytes(req))
  {
    var token := d.nextToken;
    if IsLong(token) {
      DecodeEncodeLong(token);
    }
    assert token !in LiveTokens(d);
  }

  /**
    An HTTP open for a virtual host already registered is refused with head
    [0] and "vhost(...) already used", then the channel closes; no token is
    minted, the slot stays as it was and the registration is untouched.
  */
  lemma VhostInUseRefused(col: Collaborators, slot: Option<Sessions>, d: Directory, ch: ChannelId, head: Bytes,
                          sent: ProtoRequest, req: ProtoRequest, listenOk: bool, bindError: string)
    requires col.fromBytes(head) == Some(sent) && sent.proto == HTTP && col.proceed(sent) == Ok(req)
    requires req.vhost in d.http
    ensures OnRequest(col, slot, d, ch, head, listenOk, bindError)
         == Step(slot, d, [WriteThenClose(ch, ProtoMessage(RESPONSE, [0], Utf8("vhost(" + req.vhost + ") already used")))])
  {
  }

  /** A request the interceptor refuses, of either protocol, is answered with its message and nothing changes. */
  lemma InterceptorRefusalRefused(col: Collaborators, slot: Option<Sessions>, d: Directory, ch: ChannelId, head: Bytes,
                                  sent: ProtoRequest, e: string, listenOk: bool, bindError: string)
    requires col.fromBytes(head) == Some(sent) && (sent.proto == TCP || sent.proto == HTTP) && col.proceed(sent) == Err(e)
    ensures OnRequest(col, slot, d, ch, head, listenOk, bindError)
         == Step(slot, d, [WriteThenClose(ch, ProtoMessage(RESPONSE, [0], Utf8(e)))])
  {
  }

  /** A request for an unknown protocol gets the fixed protocol-error reply and a close, and changes nothing. */
  lemma UnknownProtoRefused(col: Collaborators, slot: Option<Sessions>, d: Directory, ch: ChannelId, head: Bytes,
                            sent: ProtoRequest, listenOk: bool, bindError: string)
    requires col.fromBytes(head) == Some(sent) && sent.proto.OtherProto?
    ensures OnRequest(col, slot, d, ch, head, listenOk, bindError)
         == Step(slot, d, [WriteThenClose(ch, ProtoMessage(RESPONSE, [0], Utf8(PROTOCOL_ERROR)))])
  {
  }

  /**
    When binding the port fails, the slot already holds the new record and
    the token is spent, but no directory entry is made; the reply is a
    failure and a close. The cleanup that follows leaves the directories as
    they were before the request.
  */
  lemma TcpBindFailureKeepsSlot(col: Collaborators, slot: Option<Sessions>, d: Directory, ch: ChannelId, head: Bytes,
                                sent: ProtoRequest, req: ProtoRequest, listenOk: bool, bindError: string)
    requires Valid(d)
    requires col.fromBytes(head) == Some(sent) && sent.proto == TCP && col.proceed(sent) == Ok(req) && req.proto == TCP
    requires PortHeld(d, req.remotePort) || !listenOk
    ensures var r := OnRequest(col, slot, d, ch, head, listenOk, bindError);
      && r.slot == Some(Sessions(d.nextToken, req, ch))
      && r.dir == d.(nextToken := d.nextToken + 1)
      && r.effects == [WriteThenClose(ch, ProtoMessage(RESPONSE, [0], Utf8(bindError)))]
      && OnInactive(r.slot, r.dir).dir == r.dir
  {
    assert d.nextToken !in d.tcp;
  }

  /**
    TRANSFER with a well-formed head changes nothing and writes the data
    verbatim to exactly one channel when the slot is set and both lookups
    hit, and otherwise writes nothing at all.
  */
  lemma TransferRouting(slot: Option<Sessions>, d: Directory, ch: ChannelId, tunnelToken: int, sessionToken: int,
                        rest: Bytes, data: Payload)
    requires IsLong(tunnelToken) && IsLong(sessionToken)
    ensures var r := OnTransfer(slot, d, ch, TokensHead(tunnelToken, sessionToken) + rest, data);
      var hit := && slot.Some?
                 && (|| (slot.value.request.proto == TCP && tunnelToken in d.tcp)
                     || (slot.value.request.proto == HTTP && HttpHasToken(d, tunnelToken)))
                 && (tunnelToken, sessionToken) in d.sessionChannels;
      && r.slot == slot && r.dir == d
      && (hit ==> r.effects == [Forward(d.sessionChannels[(tunnelToken, sessionToken)], data)])
      && (!hit ==> r.effects == [])
  {
    ReadTokensHead(tunnelToken, sessionToken, rest);
  }

  /** TRANSFER on a connection with no tunnel is dropped whatever its head. */
  lemma TransferWithoutSlotDropped(d: Directory, ch: ChannelId, head: Bytes, data: Payload)
    ensures OnTransfer(None, d, ch, head, data) == Step(None, d, [])
  {
  }

  /**
    LOCAL_DISCONNECT flushes and closes the slot's own channel for the
    session token, whatever tunnel token the frame names, and does nothing
    without a slot or without such a channel.
  */
  lemma LocalDisconnectRouting(slot: Option<Sessions>, d: Directory, ch: ChannelId, tunnelToken: int, sessionToken: int,
                               rest: Bytes)
    requires IsLong(tunnelToken) && IsLong(sessionToken)
    ensures var r := OnLocalDisconnect(slot, d, ch, TokensHead(tunnelToken, sessionToken) + rest);
      && r.slot == slot && r.dir == d
      && (slot.Some? && (slot.value.tunnelToken, sessionToken) in d.sessionChannels ==>
            r.effects == [FlushThenClose(d.sessionChannels[(slot.value.tunnelToken, sessionToken)])])
      && (slot.None? || (slot.value.tunnelToken, sessionToken) !in d.sessionChannels ==> r.effects == [])
  {
    ReadTokensHead(tunnelToken, sessionToken, rest);
  }

  /** The tunnel token of a LOCAL_DISCONNECT frame does not matter. */
  lemma LocalDisconnectIgnoresTunnelToken(slot: Option<Sessions>, d: Directory, ch: ChannelId,
                                          token1: int, token2: int, sessionToken: int)
    requires IsLong(token1) && IsLong(token2) && IsLong(sessionToken)
    ensures OnLocalDisconnect(slot, d, ch, TokensHead(token1, sessionToken))
         == OnLocalDisconnect(slot, d, ch, TokensHead(token2, sessionToken))
  {
    ReadTokensHead(token1, sessionToken, []);
    ReadTokensHead(token2, sessionToken, []);
    assert TokensHead(token1, sessionToken) + [] == TokensHead(token1, sessionToken);
    assert TokensHead(token2, sessionToken) + [] == TokensHead(token2, sessionToken);
  }

  /** LOCAL_CONNECTED, HEARTBEAT_PONG and RESPONSE do nothing. */
  lemma IgnoredTypesDoNothing(col: Collaborators, slot: Option<Sessions>, d: Directory, ch: ChannelId, input: Input)
    requires input.msg.mtype in {LOCAL_CONNECTED, HEARTBEAT_PONG, RESPONSE}
    ensures OnRead(col, slot, d, ch, input) == Step(slot, d, [])
  {
  }

  /**
    Disconnect clears the slot and releases its tunnel: the TCP entry under
    its token or the HTTP entry under its virtual host, nothing else. Doing
    it again changes nothing.
  */
  lemma InactiveReleasesOnce(slot: Option<Sessions>, d: Directory)
    ensures var r := OnInactive(slot, d);
      && r.slot.None? && r.effects == [] && r.dir.nextToken == d.nextToken && r.dir.sessionChannels == d.sessionChannels
      && (slot.Some? && slot.value.request.proto == TCP ==>
            r.dir.tcp == d.tcp - {slot.value.tunnelToken} && r.dir.http == d.http)
      && (slot.Some? && slot.value.request.proto == HTTP ==>
            r.dir.http == d.http - {slot.value.request.vhost} && r.dir.tcp == d.tcp)
      && (slot.None? ==> r.dir == d)
      && OnInactive(r.slot, r.dir) == r
  {
  }

  /** Every transition keeps the directory invariant and the slot's token minted. */
  lemma ReadPreservesValid(col: Collaborators, slot: Option<Sessions>, d: Directory, ch: ChannelId, input: Input)
    requires Valid(d) && SlotValid(slot, d)
    ensures var r := OnRead(col, slot, d, ch, input);
      Valid(r.dir) && SlotValid(r.slot, r.dir)
  {
    var msg := input.msg;
    if msg.mtype == REQUEST {
      match col.fromBytes(msg.head)
      case None =>
      case Some(sent) =>
        match col.proceed(sent)
        case Err(_) =>
        case Ok(req) =>
          if sent.proto == TCP {
            OpenTcpKeepsValid(col, slot, d, ch, req, input.listenOk, input.bindError);
          } else if sent.proto == HTTP {
            OpenHttpKeepsValid(col, slot, d, ch, req);
          }
    }
  }

  lemma OpenTcpKeepsValid(col: Collaborators, slot: Option<Sessions>, d: Directory, ch: ChannelId, req: ProtoRequest,
                          listenOk: bool, bindError: string)
    requires Valid(d)
    ensures var r := OpenTcp(col, slot, d, ch, req, listenOk, bindError);
      Valid(r.dir) && SlotValid(r.slot, r.dir)
  {
    var r := OpenTcp(col, slot, d, ch, req, listenOk, bindError);
    var token := d.nextToken;
    if !PortHeld(d, req.remotePort) && listenOk {
      forall t | t in d.tcp ensures d.tcp[t].port != req.remotePort {
      }
      assert token !in d.tcp;
    }
  }

  lemma OpenHttpKeepsValid(col: Collaborators, slot: Option<Sessions>, d: Directory, ch: ChannelId, req: ProtoRequest)
    requires Valid(d) && SlotValid(slot, d)
    ensures var r := OpenHttp(col, slot, d, ch, req);
      Valid(r.dir) && SlotValid(r.slot, r.dir)
  {
  }

  lemma InactivePreservesValid(slot: Option<Sessions>, d: Directory)
    requires Valid(d)
    ensures Valid(OnInactive(slot, d).dir)
  {
  }

  /**
    Once the connection owning the TCP tunnel on port P disconnects, an open
    for P from another connection succeeds, given that the port can be bound.
  */
  lemma DisconnectFreesPort(col: Collaborators, owner: Sessions, other: Option<Sessions>, d: Directory,
                            ch: ChannelId, head: Bytes, sent: ProtoRequest, req: ProtoRequest, bindError: string)
    requires Valid(d)
    requires owner.request.proto == TCP && owner.tunnelToken in d.tcp
    requires col.fromBytes(head) == Some(sent) && sent.proto == TCP && col.proceed(sent) == Ok(req)
    requires req.remotePort == d.tcp[owner.tunnelToken].port
    ensures var freed := OnInactive(Some(owner), d).dir;
      var r := OnRequest(col, other, freed, ch, head, true, bindError);
      && r.slot == Some(Sessions(d.nextToken, req, ch))
      && r.dir.tcp == freed.tcp[d.nextToken := TcpTunnel(req.remotePort, Sessions(d.nextToken, req, ch))]
      && |r.effects| == 1 && r.effects[0].Write?
  {
    var freed := OnInactive(Some(owner), d).dir;
    var port := req.remotePort;
    forall t | t in freed.tcp ensures freed.tcp[t].port != port {
      assert t != owner.tunnelToken;
    }
    assert !PortHeld(freed, port);
  }

  /**
    A second admitted TCP open on a connection that already has a tunnel
    replaces the slot, so the disconnect that follows releases only the
    second tunnel: the first one's port stays bound.
  */
  lemma SecondOpenLeavesFirstBound(col: Collaborators, first: Sessions, d: Directory, ch: ChannelId, head: Bytes,
                                   sent: ProtoRequest, req: ProtoRequest, bindError: string)
    requires Valid(d)
    requires first.request.proto == TCP && first.tunnelToken in d.tcp
    requires col.fromBytes(head) == Some(sent) && sent.proto == TCP && col.proceed(sent) == Ok(req)
    requires req.proto == TCP && !PortHeld(d, req.remotePort)
    ensures var r := OnRequest(col, Some(first), d, ch, head, true, bindError);
      var after := OnInactive(r.slot, r.dir).dir;
      && r.slot != Some(first)
      && first.tunnelToken in after.tcp && after.tcp[first.tunnelToken] == d.tcp[first.tunnelToken]
  {
    assert d.nextToken != first.tunnelToken;
  }

  // ---------------------------------------------------------------------------
  // The directory and the handler as objects

  /** TcpServer, HttpServer and the token producer, shared by every control connection. */
  class Relay {
    var tcp: map<int, TcpTunnel>
    var http: map<string, Sessions>
    var sessionChannels: map<(int, int), ChannelId>
    var nextToken: int

    function Value(): Directory
      reads this
    {
      Directory(tcp, http, sessionChannels, nextToken)
    }

    constructor ()
      ensures Value() == Directory(map[], map[], map[], 0) && Valid(Value())
    {
      tcp, http, sessionChannels, nextToken := map[], map[], map[], 0;
    }

    /** TokenProducer.nextToken. */
    method NextToken() returns (token: int)
      modifies this
      ensures token == old(nextToken)
      ensures Value() == old(Value()).(nextToken := token + 1)
    {
      token := nextToken;
      nextToken := nextToken + 1;
    }

    /** TcpServer.startTunnel: binds the port unless a tunnel holds it or the listen fails. */
    method StartTunnel(port: int, sessions: Sessions, listenOk: bool) returns (started: bool)
      modifies this
      ensures started == (!PortHeld(old(Value()), port) && listenOk)
      ensures started ==> Value() == old(Value()).(tcp := old(tcp)[sessions.tunnelToken := TcpTunnel(port, sessions)])
      ensures !started ==> Value() == old(Value())
    {
      started := listenOk && !exists t :: t in tcp && tcp[t].port == port;
      if started {
        tcp := tcp[sessions.tunnelToken := TcpTunnel(port, sessions)];
      }
    }

    /** TcpServer.shutdownTunnel: forgetting an absent token is a no-op. */
    method ShutdownTunnel(token: int)
      modifies this
      ensures Value() == old(Value()).(tcp := old(tcp) - {token})
    {
      tcp := tcp - {token};
    }

    method IsRegistered(vhost: string) returns (registered: bool)
      ensures registered == (vhost in http)
    {
      registered := vhost in http;
    }

    method Register(vhost: string, sessions: Sessions)
      modifies this
      ensures Value() == old(Value()).(http := old(http)[vhost := sessions])
    {
      http := http[vhost := sessions];
    }

    /** HttpServer.unregister: forgetting an absent host is a no-op. */
    method Unregister(vhost: string)
      modifies this
      ensures Value() == old(Value()).(http := old(http) - {vhost})
    {
      http := http - {vhost};
    }

    /** getDescriptorTunnelToken on the TCP directory, then getSessionChannel. */
    method TcpSessionChannel(tunnelToken: int, sessionToken: int) returns (r: Option<ChannelId>)
      ensures r == if tunnelToken in tcp then SessionChannel(Value(), tunnelToken, sessionToken) else None
    {
      if tunnelToken in tcp && (tunnelToken, sessionToken) in sessionChannels {
        return Some(sessionChannels[(tunnelToken, sessionToken)]);
      }
      return None;
    }

    /** getDescriptorTunnelToken on the HTTP directory, then getSessionChannel. */
    method HttpSessionChannel(tunnelToken: int, sessionToken: int) returns (r: Option<ChannelId>)
      ensures r == if HttpHasToken(Value(), tunnelToken) then SessionChannel(Value(), tunnelToken, sessionToken) else None
    {
      var found := exists v :: v in http && http[v].tunnelToken == tunnelToken;
      if found && (tunnelToken, sessionToken) in sessionChannels {
        return Some(sessionChannels[(tunnelToken, sessionToken)]);
      }
      return None;
    }

    /** getSessionChannel on a tunnel record already in hand. */
    method GetSessionChannel(sessions: Sessions, sessionToken: int) returns (r: Option<ChannelId>)
      ensures r == SessionChannel(Value(), sessions.tunnelToken, sessionToken)
    {
      if (sessions.tunnelToken, sessionToken) in sessionChannels {
        return Some(sessionChannels[(sessions.tunnelToken, sessionToken)]);
      }
      return None;
    }
  }

  class ServerChannelHandler {
    const channel: ChannelId
    const relay: Relay
    const col: Collaborators
    var slot: Option<Sessions>
    var effects: seq<Effect>

    constructor (channel: ChannelId, relay: Relay, col: Collaborators)
      ensures this.channel == channel && this.relay == relay && this.col == col
      ensures slot.None? && effects == []
    {
      this.channel, this.relay, this.col := channel, relay, col;
      slot, effects := None, [];
    }

    /** channelRead0 */
    method ChannelRead(input: Input)
      modifies this, relay
      ensures var r := OnRead(col, old(slot), old(relay.Value()), channel, input);
        slot == r.slot && relay.Value() == r.dir && effects == old(effects) + r.effects
    {
      var msg := input.msg;
      match msg.mtype
      case HEARTBEAT_PING => HandlePing();
      case REQUEST => HandleRequest(msg.head, input.listenOk, input.bindError);
      case TRANSFER => HandleTransfer(msg.head, msg.data);
      case LOCAL_CONNECTED => HandleLocalConnected();
      case LOCAL_DISCONNECT => HandleLocalDisconnect(msg.head);
      case _ =>
    }

    method HandlePing()
      modifies this`effects
      ensures effects == old(effects) + OnPing(slot, relay.Value(), channel).effects
    {
      effects := effects + [Write(channel, PONG)];
    }

    method HandleRequest(head: Bytes, listenOk: bool, bindError: string)
      modifies this, relay
      ensures var r := OnRequest(col, old(slot), old(relay.Value()), channel, head, listenOk, bindError);
        slot == r.slot && relay.Value() == r.dir && effects == old(effects) + r.effects
    {
      var parsed := col.fromBytes(head);
      if parsed.None? {
        ExceptionCaught();
        return;
      }
      var sent := parsed.value;
      match sent.proto
      case TCP =>
        var admitted := col.proceed(sent);
        if admitted.Err? {
          effects := effects + [WriteThenClose(channel, FailureResponse(admitted.error))];
          return;
        }
        var req := admitted.value;
        var token := relay.NextToken();
        var sessions := Sessions(token, req, channel);
        slot := Some(sessions);
        var started := relay.StartTunnel(req.remotePort, sessions, listenOk);
        if !started {
          effects := effects + [WriteThenClose(channel, FailureResponse(bindError))];
          return;
        }
        effects := effects + [Write(channel, SuccessResponse(token, col.toBytes(req)))];
      case HTTP =>
        var admitted := col.proceed(sent);
        if admitted.Err? {
          effects := effects + [WriteThenClose(channel, FailureResponse(admitted.error))];
          return;
        }
        var req := admitted.value;
        var used := relay.IsRegistered(req.vhost);
        if used {
          effects := effects + [WriteThenClose(channel, FailureResponse(VhostUsedMessage(req.vhost)))];
          return;
        }
        var token := relay.NextToken();
        var sessions := Sessions(token, req, channel);
        slot := Some(sessions);
        relay.Register(req.vhost, sessions);
        effects := effects + [Write(channel, SuccessResponse(token, col.toBytes(req)))];
      case OtherProto(_) =>
        effects := effects + [WriteThenClose(channel, FailureResponse(PROTOCOL_ERROR))];
    }

    method HandleTransfer(head: Bytes, data: Payload)
      modifies this`effects
      ensures effects == old(effects) + OnTransfer(slot, relay.Value(), channel, head, data).effects
    {
      if slot.None? {
        return;
      }
      if |head| < 16 {
        ExceptionCaught();
        return;
      }
      var tunnelToken := DecodeLong(head[..8]);
      var sessionToken := DecodeLong(head[8..16]);
      var target: Option<ChannelId> := None;
      match slot.value.request.proto {
        case TCP => target := relay.TcpSessionChannel(tunnelToken, sessionToken);
        case HTTP => target := relay.HttpSessionChannel(tunnelToken, sessionToken);
        case OtherProto(_) =>
      }
      if target.Some? {
        effects := effects + [Forward(target.value, data)];
      }
    }

    method HandleLocalConnected()
      ensures effects == old(effects)
    {
    }

    method HandleLocalDisconnect(head: Bytes)
      modifies this`effects
      ensures effects == old(effects) + OnLocalDisconnect(slot, relay.Value(), channel, head).effects
    {
      if |head| < 16 {
        ExceptionCaught();
        return;
      }
      var sessionToken := DecodeLong(head[8..16]);
      if slot.None? {
        return;
      }
      var target := relay.GetSessionChannel(slot.value, sessionToken);
      if target.Some? {
        effects := effects + [FlushThenClose(target.value)];
      }
    }

    /** channelInactive */
    method ChannelInactive()
      modifies this`slot, relay
      ensures var r := OnInactive(old(slot), old(relay.Value()));
        slot == r.slot && relay.Value() == r.dir
    {
      if slot.Some? {
        var sessions := slot.value;
        match sessions.request.proto
        case TCP => relay.ShutdownTunnel(sessions.tunnelToken);
        case HTTP => relay.Unregister(sessions.request.vhost);
        case OtherProto(_) =>
      }
      slot := None;
    }

    /** exceptionCaught */
    method ExceptionCaught()
      modifies this`effects
      ensures effects == old(effects) + OnException(slot, relay.Value(), channel).effects
    {
      effects := effects + [FlushThenClose(channel)];
    }
  }
}
