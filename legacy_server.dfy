/**
  The older, single-protocol control handler of the relay server
  (tunnel-core TunnelServerChannelHandler). A client opens a tunnel by
  sending the text `localAddr:localPort<-remotePort` in the head of an
  OPEN_TUNNEL_REQUEST; the server records the parts as channel attributes,
  opens a user tunnel on the remote port through the process-wide manager and
  answers with the 8-byte tunnel token. TRANSFER and LOCAL_TUNNEL_DISCONNECT
  frames are routed through the same manager.
*/
module LegacyTunnelServer {
  import opened Wire
  import opened JavaText

  // ---------------------------------------------------------------------------
  // The mapping text

  datatype Mapping = Mapping(localAddr: string, localPort: int, remotePort: int)

  /** What the parsing lines do with a head: close, throw, or yield the parts. */
  datatype MappingParse = WrongShape | Malformed | Parsed(mapping: Mapping)

  const ARROW: string := "<-"
  const COLON: string := ":"

  /**
    Split on "<-"; anything but two parts closes the channel. Then split the
    first part on ":" and read element 0 as the address, element 1 as the
    local port and the second part as the remote port; a missing element or
    a bad number throws.
  */
  function ParseMapping(text: string): (r: MappingParse)
    ensures r.WrongShape? <==> |Split(text, ARROW)| != 2
    ensures r.Parsed? <==>
      && |Split(text, ARROW)| == 2
      && |Split(Split(text, ARROW)[0], COLON)| >= 2
      && ParseInt(Split(Split(text, ARROW)[0], COLON)[1]).Some?
      && ParseInt(Split(text, ARROW)[1]).Some?
    ensures r.Parsed? ==>
      var parts := Split(text, ARROW);
      var addrPort := Split(parts[0], COLON);
      && |addrPort| >= 2
      && r.mapping.localAddr == addrPort[0]
      && ParseInt(addrPort[1]) == Some(r.mapping.localPort)
      && ParseInt(parts[1]) == Some(r.mapping.remotePort)
  {
    var parts := Split(text, ARROW);
    if |parts| != 2 then WrongShape
    else
      var addrPort := Split(parts[0], COLON);
      if |addrPort| < 2 then Malformed
      else
        match (ParseInt(addrPort[1]), ParseInt(parts[1]))
        case (Some(localPort), Some(remotePort)) => Parsed(Mapping(addrPort[0], localPort, remotePort))
        case _ => Malformed
  }

  /** The text a client sends for a mapping. */
  function FormatMapping(m: Mapping): string {
    m.localAddr + COLON + IntToString(m.localPort) + ARROW + IntToString(m.remotePort)
  }

  predicate WellFormedMapping(m: Mapping) {
    && !Contains(m.localAddr, COLON)
    && !Contains(m.localAddr, ARROW)
    && IsInt(m.localPort)
    && IsInt(m.remotePort)
  }

  lemma OccursArrow(s: string, i: nat)
    requires i + 2 <= |s|
    ensures OccursAt(s, ARROW, i) <==> s[i] == '<' && s[i + 1] == '-'
  {
    assert s[i..i + 2] == [s[i], s[i + 1]];
  }

  lemma OccursColon(s: string, i: nat)
    requires i < |s|
    ensures OccursAt(s, COLON, i) <==> s[i] == ':'
  {
    assert s[i..i + 1] == [s[i]];
  }

  /** A number's text holds neither ":" nor "<-". */
  lemma NumberTextClean(x: int)
    ensures !Contains(IntToString(x), COLON) && !Contains(IntToString(x), ARROW)
  {
    var t := IntToString(x);
    forall i | 0 <= i <= |t| ensures !OccursAt(t, COLON, i) && !OccursAt(t, ARROW, i) {
      if i < |t| {
        OccursColon(t, i);
        if i + 2 <= |t| {
          OccursArrow(t, i);
        }
      }
    }
  }

  /** Splitting `x + "<-" + q` on "<-" gives the two sides when neither holds an arrow. */
  lemma SplitArrowOnce(x: string, q: string)
    requires !Contains(x, ARROW) && !Contains(q, ARROW) && q != ""
    ensures Split(x + ARROW + q, ARROW) == [x, q]
  {
    var s := x + ARROW + q;
    forall i | 0 <= i < |x| ensures !OccursAt(s, ARROW, i) {
      OccursArrow(s, i);
      if i + 2 <= |x| {
        OccursArrow(x, i);
        assert !OccursAt(x, ARROW, i);
      } else {
        assert s[i + 1] == '<';
      }
    }
    PiecesAfter(x, ARROW, q);
    SplitAbsent(q, ARROW);
  }

  /** Splitting `a + ":" + p` on ":" gives the two sides when neither holds a colon. */
  lemma SplitColonOnce(a: string, p: string)
    requires !Contains(a, COLON) && !Contains(p, COLON) && p != ""
    ensures Split(a + COLON + p, COLON) == [a, p]
  {
    var x := a + COLON + p;
    forall i | 0 <= i < |a| ensures !OccursAt(x, COLON, i) {
      OccursColon(x, i);
      OccursColon(a, i);
      assert x[i] == a[i];
    }
    PiecesAfter(a, COLON, p);
    SplitAbsent(p, COLON);
  }

  /** No arrow is formed by joining an arrow-free address, a colon and a number's text. */
  lemma AddrPortArrowFree(a: string, y: int)
    requires !Contains(a, ARROW)
    ensures !Contains(a + COLON + IntToString(y), ARROW)
  {
    var p := IntToString(y);
    var x := a + COLON + p;
    forall i | 0 <= i <= |x| ensures !OccursAt(x, ARROW, i) {
      if i + 2 <= |x| {
        OccursArrow(x, i);
        if i + 2 <= |a| {
          OccursArrow(a, i);
          assert x[i] == a[i] && x[i + 1] == a[i + 1];
        } else if i == |a| - 1 {
          assert x[i + 1] == ':';
        } else if i == |a| {
          assert x[i] == ':';
        } else {
          assert x[i] == p[i - |a| - 1];
        }
      }
    }
  }

  /** Formatting a mapping and parsing the text gives the mapping back. */
  lemma ParseFormatMapping(m: Mapping)
    requires WellFormedMapping(m)
    ensures ParseMapping(FormatMapping(m)) == Parsed(m)
  {
    var a, p, q := m.localAddr, IntToString(m.localPort), IntToString(m.remotePort);
    NumberTextClean(m.localPort);
    NumberTextClean(m.remotePort);
    AddrPortArrowFree(a, m.localPort);
    var x := a + COLON + p;
    assert FormatMapping(m) == x + ARROW + q;
    SplitArrowOnce(x, q);
    SplitColonOnce(a, p);
    ParseIntToString(m.localPort);
    ParseIntToString(m.remotePort);
  }

  /** `new String(head)` decoded as ISO-8859-1: byte value b becomes the character with code b. */
  function HeadText(head: Bytes): (s: string)
    ensures |s| == |head|
    ensures forall i :: 0 <= i < |head| ==> s[i] == (head[i] as int) as char
  {
    seq(|head|, i requires 0 <= i < |head| => (head[i] as int) as char)
  }

  // ---------------------------------------------------------------------------
  // Messages, channel attributes and the tunnel manager

  type ChannelId = int

  datatype MessageType =
    | HEARTBEAT
    | OPEN_TUNNEL_REQUEST
    | OPEN_TUNNEL_RESPONSE
    | TRANSFER
    | LOCAL_TUNNEL_DISCONNECT
    | OtherType(tag: int)

  datatype TunnelMessage = TunnelMessage(mtype: MessageType, head: Bytes, data: Bytes)

  /** What a handler call does to the outside world, in order. */
  datatype Effect =
    | Reply(msg: TunnelMessage)           // written and flushed on the control channel
    | CloseControl                        // ctx.close()
    | Raised                              // an exception left the handler
    | Forward(target: ChannelId, data: Bytes)  // written to a user channel
    | FlushThenClose(target: ChannelId)   // empty write, then close on completion

  /** The four attributes the open request sets on the control channel. */
  datatype Attrs = Attrs(
    mapping: Option<string>,
    localAddr: Option<string>,
    localPort: Option<int>,
    remotePort: Option<int>)

  const NO_ATTRS: Attrs := Attrs(None, None, None, None)

  /** One open tunnel: its public port, the control channel owning it, its user channels. */
  datatype UserTunnel = UserTunnel(remotePort: int, owner: ChannelId, sessions: map<(int, int), ChannelId>)

  /** The process-wide tunnel manager: tunnels by token, and the next token. */
  datatype Manager = Manager(tunnels: map<int, UserTunnel>, nextToken: int)

  ghost predicate ManagerValid(m: Manager) {
    forall t :: t in m.tunnels ==> t < m.nextToken
  }

  /** getUserTunnelByTunnelToken, then getUserTunnelChannel. */
  function UserChannel(m: Manager, tunnelToken: int, sessionToken: int): (r: Option<ChannelId>)
    ensures r.Some? <==> tunnelToken in m.tunnels && (tunnelToken, sessionToken) in m.tunnels[tunnelToken].sessions
  {
    if tunnelToken in m.tunnels && (tunnelToken, sessionToken) in m.tunnels[tunnelToken].sessions
    then Some(m.tunnels[tunnelToken].sessions[(tunnelToken, sessionToken)])
    else None
  }

  /** closeUserTunnel(channel): every tunnel owned by the channel goes. */
  function CloseOwnedBy(m: Manager, ch: ChannelId): (r: Manager)
    ensures r.nextToken == m.nextToken
    ensures forall t :: t in r.tunnels <==> t in m.tunnels && m.tunnels[t].owner != ch
    ensures forall t :: t in r.tunnels ==> r.tunnels[t] == m.tunnels[t]
  {
    m.(tunnels := map t | t in m.tunnels && m.tunnels[t].owner != ch :: m.tunnels[t])
  }

  // ---------------------------------------------------------------------------
  // The handler as transitions on values

  datatype Step = Step(attrs: Attrs, manager: Manager, effects: seq<Effect>)

  const HEARTBEAT_REPLY: TunnelMessage := TunnelMessage(HEARTBEAT, [], [])

  function OpenResponse(token: int): TunnelMessage {
    TunnelMessage(OPEN_TUNNEL_RESPONSE, EncodeLong(token), [])
  }

  function OnHeartbeat(attrs: Attrs, m: Manager): Step {
    Step(attrs, m, [Reply(HEARTBEAT_REPLY)])
  }

  /**
    The open request. `portBound` is whether openUserTunnel manages to open the
    public port; when it does not, it throws after the attributes were set.
  */
  function OnOpenTunnelRequest(attrs: Attrs, m: Manager, ch: ChannelId, head: Bytes, portBound: bool): (r: Step)
    ensures |r.effects| == 1
    ensures r.effects[0].Reply? <==> ParseMapping(HeadText(head)).Parsed? && portBound
    ensures !ParseMapping(HeadText(head)).Parsed? ==> r.attrs == attrs
    ensures ParseMapping(HeadText(head)).Parsed? ==>
      var mp := ParseMapping(HeadText(head)).mapping;
      r.attrs == Attrs(Some(HeadText(head)), Some(mp.localAddr), Some(mp.localPort), Some(mp.remotePort))
    ensures r.effects[0].Reply? ==>
      && r.manager.tunnels == m.tunnels[m.nextToken := UserTunnel(ParseMapping(HeadText(head)).mapping.remotePort, ch, map[])]
      && r.manager.nextToken == m.nextToken + 1
      && r.effects[0].msg == OpenResponse(m.nextToken)
    ensures !r.effects[0].Reply? ==> r.manager == m
    ensures ParseMapping(HeadText(head)).WrongShape? ==> r.effects == [CloseControl]
    ensures ParseMapping(HeadText(head)).Malformed? || (ParseMapping(HeadText(head)).Parsed? && !portBound) ==>
      r.effects == [Raised]
  {
    var text := HeadText(head);
    match ParseMapping(text)
    case WrongShape => Step(attrs, m, [CloseControl])
    case Malformed => Step(attrs, m, [Raised])
    case Parsed(mp) =>
      var attrs' := Attrs(Some(text), Some(mp.localAddr), Some(mp.localPort), Some(mp.remotePort));
      if !portBound then Step(attrs', m, [Raised])
      else
        var token := m.nextToken;
        var m' := Manager(m.tunnels[token := UserTunnel(mp.remotePort, ch, map[])], token + 1);
        Step(attrs', m', [Reply(OpenResponse(token))])
  }

  function OnTransfer(attrs: Attrs, m: Manager, head: Bytes, data: Bytes): (r: Step)
    ensures r.attrs == attrs && r.manager == m && |r.effects| <= 1
    ensures r.effects == [Raised] <==> |head| < 16
    ensures forall e :: e in r.effects ==> e == Raised || (e.Forward? && e.data == data)
  {
    match ReadTokens(head)
    case None => Step(attrs, m, [Raised])
    case Some((tunnelToken, sessionToken)) =>
      match UserChannel(m, tunnelToken, sessionToken)
      case None => Step(attrs, m, [])
      case Some(target) => Step(attrs, m, [Forward(target, data)])
  }

  function OnLocalTunnelDisconnect(attrs: Attrs, m: Manager, head: Bytes): (r: Step)
    ensures r.attrs == attrs && r.manager == m && |r.effects| <= 1
    ensures r.effects == [Raised] <==> |head| < 16
    ensures forall e :: e in r.effects ==> e == Raised || e.FlushThenClose?
  {
    match ReadTokens(head)
    case None => Step(attrs, m, [Raised])
    case Some((tunnelToken, sessionToken)) =>
      match UserChannel(m, tunnelToken, sessionToken)
      case None => Step(attrs, m, [])
      case Some(target) => Step(attrs, m, [FlushThenClose(target)])
  }

  function OnChannelInactive(attrs: Attrs, m: Manager, ch: ChannelId): (r: Step)
    ensures r.attrs == attrs && r.effects == [] && r.manager.nextToken == m.nextToken
    ensures r.manager.tunnels.Keys <= m.tunnels.Keys
    ensures forall t :: t in r.manager.tunnels ==> r.manager.tunnels[t].owner != ch
  {
    Step(attrs, CloseOwnedBy(m, ch), [])
  }

  /** channelRead0: dispatch on the message type; other types are ignored. */
  function OnRead(attrs: Attrs, m: Manager, ch: ChannelId, msg: TunnelMessage, portBound: bool): (r: Step)
    ensures |r.effects| <= 1 && m.tunnels.Keys <= r.manager.tunnels.Keys
    ensures msg.mtype != OPEN_TUNNEL_REQUEST ==> r.attrs == attrs && r.manager == m
  {
    match msg.mtype
    case HEARTBEAT => OnHeartbeat(attrs, m)
    case OPEN_TUNNEL_REQUEST => OnOpenTunnelRequest(attrs, m, ch, msg.head, portBound)
    case TRANSFER => OnTransfer(attrs, m, msg.head, msg.data)
    case LOCAL_TUNNEL_DISCONNECT => OnLocalTunnelDisconnect(attrs, m, msg.head)
    case _ => Step(attrs, m, [])
  }

  // ---------------------------------------------------------------------------
  // Properties of the transitions

  /** A heartbeat is echoed once and nothing else changes. */
  lemma HeartbeatEchoed(attrs: Attrs, m: Manager, ch: ChannelId, head: Bytes, data: Bytes, portBound: bool)
    ensures OnRead(attrs, m, ch, TunnelMessage(HEARTBEAT, head, data), portBound)
         == Step(attrs, m, [Reply(TunnelMessage(HEARTBEAT, [], []))])
  {
  }

  /** A head that does not split into two parts on "<-" closes the channel and changes nothing. */
  lemma WrongShapeCloses(attrs: Attrs, m: Manager, ch: ChannelId, head: Bytes, portBound: bool)
    ensures var r := OnOpenTunnelRequest(attrs, m, ch, head, portBound);
      (r.effects == [CloseControl]) <==> |Split(HeadText(head), ARROW)| != 2
    ensures var r := OnOpenTunnelRequest(attrs, m, ch, head, portBound);
      r.effects == [CloseControl] ==> r.attrs == attrs && r.manager == m
  {
  }

  /**
    Opening with the text of a well-formed mapping sets the four attributes
    to the text and its parts, registers a tunnel on the remote port owned by
    the channel under a fresh token, and answers with that token as 8
    big-endian bytes.
  */
  lemma OpenWellFormed(attrs: Attrs, m: Manager, ch: ChannelId, head: Bytes, mp: Mapping)
    requires ManagerValid(m)
    requires WellFormedMapping(mp) && HeadText(head) == FormatMapping(mp)
    ensures var r := OnOpenTunnelRequest(attrs, m, ch, head, true);
      && r.attrs == Attrs(Some(FormatMapping(mp)), Some(mp.localAddr), Some(mp.localPort), Some(mp.remotePort))
      && m.nextToken !in m.tunnels
      && r.manager.tunnels == m.tunnels[m.nextToken := UserTunnel(mp.remotePort, ch, map[])]
      && ManagerValid(r.manager)
      && |r.effects| == 1 && r.effects[0].Reply?
      && r.effects[0].msg.mtype == OPEN_TUNNEL_RESPONSE
      && |r.effects[0].msg.head| == 8
      && (IsLong(m.nextToken) ==> DecodeLong(r.effects[0].msg.head) == m.nextToken)
  {
    ParseFormatMapping(mp);
    if IsLong(m.nextToken) {
      DecodeEncodeLong(m.nextToken);
    }
  }

  /** TRANSFER forwards the data verbatim exactly when both lookups hit; a miss is silent. */
  lemma TransferRouting(attrs: Attrs, m: Manager, tunnelToken: int, sessionToken: int, rest: Bytes, data: Bytes)
    requires IsLong(tunnelToken) && IsLong(sessionToken)
    ensures var r := OnTransfer(attrs, m, TokensHead(tunnelToken, sessionToken) + rest, data);
      && r.attrs == attrs && r.manager == m
      && (UserChannel(m, tunnelToken, sessionToken).Some? ==>
            r.effects == [Forward(UserChannel(m, tunnelToken, sessionToken).value, data)])
      && (UserChannel(m, tunnelToken, sessionToken).None? ==> r.effects == [])
  {
    ReadTokensHead(tunnelToken, sessionToken, rest);
  }

  /** LOCAL_TUNNEL_DISCONNECT flushes and closes the resolved user channel only; a miss is silent. */
  lemma LocalDisconnectRouting(attrs: Attrs, m: Manager, tunnelToken: int, sessionToken: int, rest: Bytes)
    requires IsLong(tunnelToken) && IsLong(sessionToken)
    ensures var r := OnLocalTunnelDisconnect(attrs, m, TokensHead(tunnelToken, sessionToken) + rest);
      && r.attrs == attrs && r.manager == m
      && (UserChannel(m, tunnelToken, sessionToken).Some? ==>
            r.effects == [FlushThenClose(UserChannel(m, tunnelToken, sessionToken).value)])
      && (UserChannel(m, tunnelToken, sessionToken).None? ==> r.effects == [])
  {
    ReadTokensHead(tunnelToken, sessionToken, rest);
  }

  /** Every transition keeps tokens below the counter. */
  lemma ReadKeepsManagerValid(attrs: Attrs, m: Manager, ch: ChannelId, msg: TunnelMessage, portBound: bool)
    requires ManagerValid(m)
    ensures ManagerValid(OnRead(attrs, m, ch, msg, portBound).manager)
    ensures ManagerValid(OnChannelInactive(attrs, m, ch).manager)
  {
  }

  /** Disconnect removes the channel's own tunnels, keeps everyone else's, and a second one does nothing. */
  lemma InactiveIdempotent(attrs: Attrs, m: Manager, ch: ChannelId)
    ensures var once := OnChannelInactive(attrs, m, ch);
      && (forall t :: t in once.manager.tunnels ==> once.manager.tunnels[t].owner != ch)
      && (forall t :: t in m.tunnels && m.tunnels[t].owner != ch ==> t in once.manager.tunnels)
      && OnChannelInactive(once.attrs, once.manager, ch) == once
  {
  }

  // ---------------------------------------------------------------------------
  // The handler and the manager as objects

  class UserTunnelManager {
    var tunnels: map<int, UserTunnel>
    var nextToken: int

    function Value(): Manager
      reads this
    {
      Manager(tunnels, nextToken)
    }

    constructor ()
      ensures Value() == Manager(map[], 0)
    {
      tunnels := map[];
      nextToken := 0;
    }

    /** openUserTunnel(remotePort, channel); `portBound` is whether the port could be bound. */
    method OpenUserTunnel(remotePort: int, ch: ChannelId, portBound: bool) returns (token: Option<int>)
      modifies this
      ensures portBound ==> token == Some(old(nextToken))
      ensures portBound ==> Value() == Manager(old(tunnels)[old(nextToken) := UserTunnel(remotePort, ch, map[])], old(nextToken) + 1)
      ensures !portBound ==> token.None? && Value() == old(Value())
    {
      if !portBound {
        return None;
      }
      token := Some(nextToken);
      tunnels := tunnels[nextToken := UserTunnel(remotePort, ch, map[])];
      nextToken := nextToken + 1;
    }

    method GetUserTunnelChannel(tunnelToken: int, sessionToken: int) returns (r: Option<ChannelId>)
      ensures r == UserChannel(Value(), tunnelToken, sessionToken)
    {
      if tunnelToken in tunnels {
        var tunnel := tunnels[tunnelToken];
        if (tunnelToken, sessionToken) in tunnel.sessions {
          return Some(tunnel.sessions[(tunnelToken, sessionToken)]);
        }
      }
      return None;
    }

    method CloseUserTunnel(ch: ChannelId)
      modifies this
      ensures Value() == CloseOwnedBy(old(Value()), ch)
    {
      tunnels := map t | t in tunnels && tunnels[t].owner != ch :: tunnels[t];
    }
  }

  class LegacyServerHandler {
    const channel: ChannelId
    const manager: UserTunnelManager
    var mapping: Option<string>
    var localAddr: Option<string>
    var localPort: Option<int>
    var remotePort: Option<int>
    var effects: seq<Effect>

    function Attributes(): Attrs
      reads this
    {
      Attrs(mapping, localAddr, localPort, remotePort)
    }

    constructor (channel: ChannelId, manager: UserTunnelManager)
      ensures this.channel == channel && this.manager == manager
      ensures Attributes() == NO_ATTRS && effects == []
    {
      this.channel := channel;
      this.manager := manager;
      mapping, localAddr, localPort, remotePort := None, None, None, None;
      effects := [];
    }

    method ChannelRead(msg: TunnelMessage, portBound: bool)
      modifies this, manager
      ensures var r := OnRead(old(Attributes()), old(manager.Value()), channel, msg, portBound);
        Attributes() == r.attrs && manager.Value() == r.manager && effects == old(effects) + r.effects
    {
      match msg.mtype
      case HEARTBEAT => HandleHeartbeat();
      case OPEN_TUNNEL_REQUEST => HandleOpenTunnelRequest(msg.head, portBound);
      case TRANSFER => HandleTransfer(msg.head, msg.data);
      case LOCAL_TUNNEL_DISCONNECT => HandleLocalTunnelDisconnect(msg.head);
      case _ =>
    }

    method HandleHeartbeat()
      modifies this`effects
      ensures effects == old(effects) + OnHeartbeat(Attributes(), manager.Value()).effects
    {
      effects := effects + [Reply(HEARTBEAT_REPLY)];
    }

    method HandleOpenTunnelRequest(head: Bytes, portBound: bool)
      modifies this, manager
      ensures var r := OnOpenTunnelRequest(old(Attributes()), old(manager.Value()), channel, head, portBound);
        Attributes() == r.attrs && manager.Value() == r.manager && effects == old(effects) + r.effects
    {
      var text := HeadText(head);
      var parsed := ParseMapping(text);
      if parsed.WrongShape? {
        effects := effects + [CloseControl];
        return;
      }
      if parsed.Malformed? {
        effects := effects + [Raised];
        return;
      }
      var mp := parsed.mapping;
      mapping := Some(text);
      localAddr := Some(mp.localAddr);
      localPort := Some(mp.localPort);
      remotePort := Some(mp.remotePort);
      var token := manager.OpenUserTunnel(mp.remotePort, channel, portBound);
      match token
      case None => effects := effects + [Raised];
      case Some(t) => effects := effects + [Reply(OpenResponse(t))];
    }

    method HandleTransfer(head: Bytes, data: Bytes)
      modifies this`effects
      ensures effects == old(effects) + OnTransfer(Attributes(), manager.Value(), head, data).effects
    {
      if |head| < 16 {
        effects := effects + [Raised];
        return;
      }
      var tunnelToken := DecodeLong(head[..8]);
      var sessionToken := DecodeLong(head[8..16]);
      var target := manager.GetUserTunnelChannel(tunnelToken, sessionToken);
      if target.Some? {
        effects := effects + [Forward(target.value, data)];
      }
    }

    method HandleLocalTunnelDisconnect(head: Bytes)
      modifies this`effects
      ensures effects == old(effects) + OnLocalTunnelDisconnect(Attributes(), manager.Value(), head).effects
    {
      if |head| < 16 {
        effects := effects + [Raised];
        return;
      }
      var tunnelToken := DecodeLong(head[..8]);
      var sessionToken := DecodeLong(head[8..16]);
      var target := manager.GetUserTunnelChannel(tunnelToken, sessionToken);
      if target.Some? {
        effects := effects + [FlushThenClose(target.value)];
      }
    }

    method ChannelInactive()
      modifies manager
      ensures manager.Value() == OnChannelInactive(Attributes(), old(manager.Value()), channel).manager
    {
      manager.CloseUserTunnel(channel);
    }
  }
}
