# LightTunnel control handlers in Dafny

LightTunnel is a reverse-tunnel relay. A tunnel client behind a NAT keeps a
control connection to a public server and asks it to open a tunnel: a public
TCP port or an HTTP virtual host. Each open tunnel has a tunnel token. Each
downstream user connection has a session token. Data flows between the two
sides in TRANSFER frames whose head carries both tokens, 8 bytes each, big-endian.

This project models the per-connection state machines that drive this protocol:

- `tunnel_server.dfy` (module `TunnelServer`): the newer TCP/HTTP server handler.
  - The ping, open request, transfer, local-connected and local-disconnect handlers.
  - Disconnect cleanup and exception handling.
  - The shared TCP and HTTP directories, their session channels and the token producer, as the class `Relay`.
  - The connection's tunnel-sessions slot and effect log, as the class `ServerChannelHandler`.
- `legacy_server.dfy` (module `LegacyTunnelServer`): the older single-protocol server handler.
  - Its `localAddr:localPort<-remotePort` mapping text, with a parse and format round trip.
  - The four channel attributes it sets.
  - The process-wide user-tunnel manager.
- `client_daemon.dfy` (module `ClientDaemon`): the client's control handler.
  - Its four channel attributes: tunnel id, session id, tunnel request and inactive extra.
  - The attached connection's final request.
  - The local client's table of local channels by (tunnel id, session id).
- `interceptor.dfy` (module `RequestInterceptor`): the server's default admission policy.
  - An auth token check.
  - A TCP port whitelist, and the choice of a free port when the client asks for port 0.
- `requests.dfy` (module `TunnelRequests`): the tunnel request value that the client and the interceptor share.
- `wire.dfy` (module `Wire`): bytes, Java's 8-byte big-endian `writeLong`/`readLong`, and the 16-byte token head.
- `java_text.dfy` (module `JavaText`): the mapping parser's library calls.
  - `Integer.parseInt` and `Integer.toString`.
  - `String.split` with a literal separator and limit 0, so trailing empty pieces are dropped.

Each handler is modelled twice:

- **As pure transition functions.** A function such as `OnRequest` or `OnTransfer` maps the old state to the new state plus an effect log. The effect log records the writes, closes and listener calls, in order.
- **As a class.** Its fields are the connection's attributes. Its methods change them in place. Each method's `ensures` says that the new state and the appended effects are what the transition function gives.

The lemmas state what the source promises about the transition functions.

The handler depends on outcomes it does not control:

- whether a port can be bound;
- what the request codec and the interceptor return;
- whether a local channel arrives.

Each of these is a parameter.

Netty routes an exception thrown in `channelRead0` to the same handler's
`exceptionCaught`. In the newer server and in the client, that method writes
an empty buffer and then closes the channel. So a head too short for
`readLong`, or a request the codec cannot read, gives that flush-and-close
effect. The older server has no `exceptionCaught` override, so there the
effect is recorded as `Raised`.

Four behaviours of the code are easy to misread; the model follows the code:

- **A failed TCP bind still spends a token and fills the slot.** The token is minted, and the slot set, before `startTunnel` runs. So a failed bind spends a token and leaves the slot holding a record with no directory entry (`TunnelServer.TcpBindFailureKeepsSlot`).
- **Disconnect only drops directory entries.** On disconnect the handler only calls `shutdownTunnel` or `unregister`. Closing the tunnel's downstream connections is left to those collaborators. So the model removes the directory entry and leaves the session channels alone.
- **LOCAL_DISCONNECT reads its head first.** The head is read before the slot is checked, so a short head fails even without a tunnel. The frame's tunnel token is never used (`TunnelServer.LocalDisconnectIgnoresTunnelToken`).
- **A second REQUEST replaces the first tunnel's record.** The slot then holds only the second tunnel. The first tunnel's port stays bound after disconnect (`TunnelServer.SecondOpenLeavesFirstBound`).

## Model

| member | source | states |
|---|---|---|
| Wire.EncodeLong | tunnel-server/src/main/java/com/tuuzed/tunnel/server/TunnelServerChannelHandler.java:126-128 | `writeLong` gives 8 bytes whose big-endian unsigned value is the long modulo 2^64 (two's complement) |
| Wire.DecodeLong | tunnel-core/src/main/java/com/tuuzed/tunnel/server/TunnelServerChannelHandler.java:92-94 | `readLong` gives a long that is congruent modulo 2^64 to the unsigned value of the first 8 bytes |
| Wire.ReadTokens | tunnel-server/src/main/java/com/tuuzed/tunnel/server/TunnelServerChannelHandler.java:204-207 | two tokens are read exactly when the head has at least 16 bytes; they are the longs of bytes 0..7 and 8..15 |
| Wire.DecodeEncodeLong | tunnel-server/src/main/java/com/tuuzed/tunnel/server/TunnelServerChannelHandler.java:126-128 | reading back the 8 bytes `writeLong` produces gives the same long |
| Wire.EncodeDecodeLong | tunnel-core/src/main/java/com/tuuzed/tunnel/server/TunnelServerChannelHandler.java:92-94 | any 8 bytes are the encoding of the long `readLong` reads from them |
| Wire.ReadTokensHead | tunnel-server/src/main/java/com/tuuzed/tunnel/server/TunnelServerChannelHandler.java:204-207 | a head starting with the two encoded tokens decodes to exactly those tokens, whatever follows |
| JavaText.ParseIntToString | tunnel-core/src/main/java/com/tuuzed/tunnel/server/TunnelServerChannelHandler.java:72-73 | `Integer.parseInt` of `Integer.toString(x)` is x for every int x |
| JavaText.ParseInt | tunnel-core/src/main/java/com/tuuzed/tunnel/server/TunnelServerChannelHandler.java:72-73 | `Integer.parseInt` succeeds exactly on an optional '+' or '-' followed by at least one ASCII digit whose value fits an int, and yields the digits' value, negated after '-'; any other text is a NumberFormatException |
| JavaText.IntToString | tunnel-core/src/main/java/com/tuuzed/tunnel/server/TunnelServerChannelHandler.java:72-73 | the decimal text that `Integer.parseInt` reads back: non-empty, a leading '-' exactly for negatives, digits everywhere else |
| JavaText.Split | tunnel-core/src/main/java/com/tuuzed/tunnel/server/TunnelServerChannelHandler.java:65-70 | `split` with limit 0 keeps the pieces between separators in order and drops only trailing empty ones; with no separator the text is its own piece |
| JavaText.JoinPieces | tunnel-core/src/main/java/com/tuuzed/tunnel/server/TunnelServerChannelHandler.java:65 | the pieces between separators, joined again with the separator, give back the text |
| JavaText.PiecesFree | tunnel-core/src/main/java/com/tuuzed/tunnel/server/TunnelServerChannelHandler.java:65-70 | no piece that `split` cuts out contains the separator, so with `JoinPieces` the pieces are exactly the text between occurrences |
| JavaText.SplitAbsent | tunnel-core/src/main/java/com/tuuzed/tunnel/server/TunnelServerChannelHandler.java:70 | splitting text without the separator yields that text alone |
| LegacyTunnelServer.ParseMapping | tunnel-core/src/main/java/com/tuuzed/tunnel/server/TunnelServerChannelHandler.java:62-73 | the channel is closed exactly when the text is not two parts around "<-"; the text parses exactly when it is two parts, the first splits on ":" into at least two pieces, and both numbers parse (otherwise the source throws); a parse yields element 0 of the ":" split as address and the parsed numbers as ports |
| LegacyTunnelServer.ParseFormatMapping | tunnel-core/src/main/java/com/tuuzed/tunnel/server/TunnelServerChannelHandler.java:65-73 | formatting `A:P<-R` and parsing it gives (A, P, R) back when A holds no ':' and no "<-" and both ports are ints |
| LegacyTunnelServer.HeadText | tunnel-core/src/main/java/com/tuuzed/tunnel/server/TunnelServerChannelHandler.java:63 | the mapping text has one character per head byte, the character whose code is that byte's value (ISO-8859-1) |
| LegacyTunnelServer.UserChannel | tunnel-core/src/main/java/com/tuuzed/tunnel/server/TunnelServerChannelHandler.java:95-97 | a user channel is found exactly when the tunnel token names a tunnel that holds the session |
| LegacyTunnelServer.CloseOwnedBy | tunnel-core/src/main/java/com/tuuzed/tunnel/server/TunnelServerChannelHandler.java:25 | exactly the tunnels owned by the closing channel go; the others stay as they were |
| LegacyTunnelServer.OnRead | tunnel-core/src/main/java/com/tuuzed/tunnel/server/TunnelServerChannelHandler.java:30-48 | at most one effect; only OPEN_TUNNEL_REQUEST changes attributes or manager, and no message removes a tunnel |
| LegacyTunnelServer.OnOpenTunnelRequest | tunnel-core/src/main/java/com/tuuzed/tunnel/server/TunnelServerChannelHandler.java:61-85 | one effect: a close iff the text is not two parts around "<-"; a raise, with the channel left open, when the port numbers do not parse or the port does not bind; a reply iff the text parses and the port binds; a parse sets the four attributes before the bind; a reply registers the tunnel under the next token and carries that token; otherwise the manager is unchanged |
| LegacyTunnelServer.OnTransfer | tunnel-core/src/main/java/com/tuuzed/tunnel/server/TunnelServerChannelHandler.java:91-102 | attributes and manager unchanged; raises iff the head is shorter than 16 bytes; anything forwarded is the data verbatim |
| LegacyTunnelServer.OnLocalTunnelDisconnect | tunnel-core/src/main/java/com/tuuzed/tunnel/server/TunnelServerChannelHandler.java:107-119 | attributes and manager unchanged; raises iff the head is shorter than 16 bytes; otherwise at most one flush-and-close |
| LegacyTunnelServer.OnChannelInactive | tunnel-core/src/main/java/com/tuuzed/tunnel/server/TunnelServerChannelHandler.java:23-27 | no effect, attributes and counter unchanged; no remaining tunnel is owned by the channel and none is added |
| LegacyTunnelServer.HeartbeatEchoed | tunnel-core/src/main/java/com/tuuzed/tunnel/server/TunnelServerChannelHandler.java:54-56 | a heartbeat is answered by one heartbeat and changes nothing |
| LegacyTunnelServer.WrongShapeCloses | tunnel-core/src/main/java/com/tuuzed/tunnel/server/TunnelServerChannelHandler.java:65-69 | the open request closes the channel iff its text is not two parts around "<-", and then sets no attribute and opens no tunnel |
| LegacyTunnelServer.OpenWellFormed | tunnel-core/src/main/java/com/tuuzed/tunnel/server/TunnelServerChannelHandler.java:70-84 | a well-formed mapping sets the four attributes to the text and its parts, registers a tunnel under a fresh token, and answers with that token as 8 big-endian bytes |
| LegacyTunnelServer.TransferRouting | tunnel-core/src/main/java/com/tuuzed/tunnel/server/TunnelServerChannelHandler.java:91-102 | TRANSFER forwards the data verbatim to the resolved user channel when both lookups hit and is silent otherwise; nothing changes |
| LegacyTunnelServer.LocalDisconnectRouting | tunnel-core/src/main/java/com/tuuzed/tunnel/server/TunnelServerChannelHandler.java:107-119 | LOCAL_TUNNEL_DISCONNECT flushes and closes only the resolved user channel; a miss is silent |
| LegacyTunnelServer.ReadKeepsManagerValid | tunnel-core/src/main/java/com/tuuzed/tunnel/server/TunnelServerChannelHandler.java:30-48 | every message and every disconnect keeps all live tokens below the token counter |
| LegacyTunnelServer.InactiveIdempotent | tunnel-core/src/main/java/com/tuuzed/tunnel/server/TunnelServerChannelHandler.java:23-27 | disconnect leaves no tunnel of the channel, keeps every other tunnel, and a second disconnect changes nothing |
| LegacyTunnelServer.UserTunnelManager.OpenUserTunnel | tunnel-core/src/main/java/com/tuuzed/tunnel/server/TunnelServerChannelHandler.java:80 | a bound port gets the next token and a tunnel owned by the channel; an unbound one changes nothing |
| LegacyTunnelServer.UserTunnelManager.GetUserTunnelChannel | tunnel-core/src/main/java/com/tuuzed/tunnel/server/TunnelServerChannelHandler.java:95-97 | returns the user channel of the (tunnel token, session token) pair, if any |
| LegacyTunnelServer.UserTunnelManager.CloseUserTunnel | tunnel-core/src/main/java/com/tuuzed/tunnel/server/TunnelServerChannelHandler.java:25 | removes exactly the tunnels owned by the channel |
| LegacyTunnelServer.LegacyServerHandler.ChannelRead | tunnel-core/src/main/java/com/tuuzed/tunnel/server/TunnelServerChannelHandler.java:30-48 | attributes, manager and effect log become what the dispatch transition gives |
| LegacyTunnelServer.LegacyServerHandler.HandleHeartbeat | tunnel-core/src/main/java/com/tuuzed/tunnel/server/TunnelServerChannelHandler.java:54-56 | appends the heartbeat reply and changes nothing else |
| LegacyTunnelServer.LegacyServerHandler.HandleOpenTunnelRequest | tunnel-core/src/main/java/com/tuuzed/tunnel/server/TunnelServerChannelHandler.java:61-85 | parses the head, sets the attributes before opening the tunnel, and replies with the token, as the open transition gives |
| LegacyTunnelServer.LegacyServerHandler.HandleTransfer | tunnel-core/src/main/java/com/tuuzed/tunnel/server/TunnelServerChannelHandler.java:91-102 | appends the effects of the transfer transition; state unchanged |
| LegacyTunnelServer.LegacyServerHandler.HandleLocalTunnelDisconnect | tunnel-core/src/main/java/com/tuuzed/tunnel/server/TunnelServerChannelHandler.java:107-119 | appends the effects of the local-disconnect transition; state unchanged |
| LegacyTunnelServer.LegacyServerHandler.ChannelInactive | tunnel-core/src/main/java/com/tuuzed/tunnel/server/TunnelServerChannelHandler.java:23-27 | the manager loses exactly the tunnels this channel owns |
| TunnelServer.SuccessResponse | tunnel-server/src/main/java/com/tuuzed/tunnel/server/TunnelServerChannelHandler.java:126-135 | a success RESPONSE has a 9-byte head, byte 0 = 1, bytes 1..8 the token, and the request's bytes as data |
| TunnelServer.FailureResponse | tunnel-server/src/main/java/com/tuuzed/tunnel/server/TunnelServerChannelHandler.java:139-146 | a failure RESPONSE has head [0] and the error text as data |
| TunnelServer.OnRead | tunnel-server/src/main/java/com/tuuzed/tunnel/server/TunnelServerChannelHandler.java:81-101 | at most one effect and session channels unchanged; only REQUEST changes slot or directories; REQUEST always answers the control channel once |
| TunnelServer.OnRequest | tunnel-server/src/main/java/com/tuuzed/tunnel/server/TunnelServerChannelHandler.java:113-196 | exactly one effect, on the control channel; flush-and-close iff the head does not decode; a success reply carries the fresh token and fills the slot with it; without a success no directory changes |
| TunnelServer.OpenTcp | tunnel-server/src/main/java/com/tuuzed/tunnel/server/TunnelServerChannelHandler.java:116-149 | the slot gets a fresh-token record and the token is spent either way; the reply is a success iff the port is free and binds, and only then is the TCP entry made; otherwise the bind error closes |
| TunnelServer.OpenHttp | tunnel-server/src/main/java/com/tuuzed/tunnel/server/TunnelServerChannelHandler.java:150-183 | a success iff the vhost is unregistered, and then the vhost maps to a fresh-token record in the slot; otherwise slot and directories are unchanged; TCP entries never change |
| TunnelServer.OnTransfer | tunnel-server/src/main/java/com/tuuzed/tunnel/server/TunnelServerChannelHandler.java:201-232 | slot and directories unchanged; nothing without a slot; a short head with a slot flushes and closes the control channel; anything forwarded is the data verbatim to a session channel |
| TunnelServer.OnLocalDisconnect | tunnel-server/src/main/java/com/tuuzed/tunnel/server/TunnelServerChannelHandler.java:244-259 | slot and directories unchanged; a short head flushes and closes the control channel; otherwise any close targets the slot's own session channel for the frame's session token |
| TunnelServer.OnInactive | tunnel-server/src/main/java/com/tuuzed/tunnel/server/TunnelServerChannelHandler.java:49-72 | the slot is cleared, no effect, counter and session channels kept; entries only go away, and the slot's own TCP token or vhost is gone |
| TunnelServer.OnException | tunnel-server/src/main/java/com/tuuzed/tunnel/server/TunnelServerChannelHandler.java:75-78 | slot and directories unchanged; the only effect flushes and closes the control channel |
| TunnelServer.PingAnswered | tunnel-server/src/main/java/com/tuuzed/tunnel/server/TunnelServerChannelHandler.java:106-108 | HEARTBEAT_PING yields one HEARTBEAT_PONG write and leaves slot and directories unchanged |
| TunnelServer.PingsAnswered | tunnel-server/src/main/java/com/tuuzed/tunnel/server/TunnelServerChannelHandler.java:81-108 | N pings in a row yield exactly N pongs in order and no change of state |
| TunnelServer.OpenTcpSucceeds | tunnel-server/src/main/java/com/tuuzed/tunnel/server/TunnelServerChannelHandler.java:116-136 | an admitted TCP open on a free, bindable port fills the slot with a record carrying a token no live tunnel has, binds the port, and replies [1]+token with the request's bytes |
| TunnelServer.OpenHttpSucceeds | tunnel-server/src/main/java/com/tuuzed/tunnel/server/TunnelServerChannelHandler.java:150-170 | an admitted HTTP open on an unused vhost fills the slot with a fresh-token record, registers the vhost, and replies [1]+token with the request's bytes |
| TunnelServer.VhostInUseRefused | tunnel-server/src/main/java/com/tuuzed/tunnel/server/TunnelServerChannelHandler.java:152-181 | an HTTP open for a registered vhost replies [0] "vhost(...) already used" and closes; no token is minted, slot and registrations are unchanged |
| TunnelServer.InterceptorRefusalRefused | tunnel-server/src/main/java/com/tuuzed/tunnel/server/TunnelServerChannelHandler.java:116-148 | a request the interceptor rejects gets [0] with the interceptor's message and a close; nothing changes |
| TunnelServer.UnknownProtoRefused | tunnel-server/src/main/java/com/tuuzed/tunnel/server/TunnelServerChannelHandler.java:184-194 | an unknown protocol gets [0] with the fixed protocol-error text and a close; nothing changes |
| TunnelServer.TcpBindFailureKeepsSlot | tunnel-server/src/main/java/com/tuuzed/tunnel/server/TunnelServerChannelHandler.java:119-124 | a TCP open whose port is held or cannot be bound spends a token and fills the slot but binds nothing; the later cleanup leaves the directories as they were |
| TunnelServer.TransferRouting | tunnel-server/src/main/java/com/tuuzed/tunnel/server/TunnelServerChannelHandler.java:201-232 | TRANSFER writes the data verbatim to exactly one session channel iff the slot is set and the directory of its protocol and the session lookups hit; otherwise nothing; state unchanged |
| TunnelServer.TransferWithoutSlotDropped | tunnel-server/src/main/java/com/tuuzed/tunnel/server/TunnelServerChannelHandler.java:202-203 | TRANSFER on a connection without a tunnel does nothing, whatever its head |
| TunnelServer.LocalDisconnectRouting | tunnel-server/src/main/java/com/tuuzed/tunnel/server/TunnelServerChannelHandler.java:244-259 | LOCAL_DISCONNECT flushes and closes the slot's own session channel if present; nothing without a slot or a channel |
| TunnelServer.LocalDisconnectIgnoresTunnelToken | tunnel-server/src/main/java/com/tuuzed/tunnel/server/TunnelServerChannelHandler.java:245-254 | two LOCAL_DISCONNECT frames that differ only in tunnel token have the same outcome |
| TunnelServer.IgnoredTypesDoNothing | tunnel-server/src/main/java/com/tuuzed/tunnel/server/TunnelServerChannelHandler.java:81-101 | LOCAL_CONNECTED, HEARTBEAT_PONG and RESPONSE frames change nothing and emit nothing |
| TunnelServer.InactiveReleasesOnce | tunnel-server/src/main/java/com/tuuzed/tunnel/server/TunnelServerChannelHandler.java:49-72 | disconnect clears the slot and removes only the TCP entry under its token or the HTTP entry under its vhost; a second disconnect changes nothing |
| TunnelServer.ReadPreservesValid | tunnel-server/src/main/java/com/tuuzed/tunnel/server/TunnelServerChannelHandler.java:113-196 | every message keeps entries under their own key, tokens and ports unique and below the counter, and the slot's token minted |
| TunnelServer.InactivePreservesValid | tunnel-server/src/main/java/com/tuuzed/tunnel/server/TunnelServerChannelHandler.java:49-72 | disconnect keeps the directory invariant |
| TunnelServer.DisconnectFreesPort | tunnel-server/src/main/java/com/tuuzed/tunnel/server/TunnelServerChannelHandler.java:58-61 | after the owner of port P disconnects, a bindable TCP open for P from another connection succeeds |
| TunnelServer.SecondOpenLeavesFirstBound | tunnel-server/src/main/java/com/tuuzed/tunnel/server/TunnelServerChannelHandler.java:122 | a second admitted TCP open replaces the slot, so the following disconnect leaves the first tunnel's port bound |
| TunnelServer.Relay.NextToken | tunnel-server/src/main/java/com/tuuzed/tunnel/server/TunnelServerChannelHandler.java:119 | returns the counter and advances it; nothing else changes |
| TunnelServer.Relay.StartTunnel | tunnel-server/src/main/java/com/tuuzed/tunnel/server/TunnelServerChannelHandler.java:124 | binds the port iff no tunnel holds it and the listen succeeds, and reports which |
| TunnelServer.Relay.ShutdownTunnel | tunnel-server/src/main/java/com/tuuzed/tunnel/server/TunnelServerChannelHandler.java:60 | removes the TCP entry under the token, and only it |
| TunnelServer.Relay.IsRegistered | tunnel-server/src/main/java/com/tuuzed/tunnel/server/TunnelServerChannelHandler.java:153 | true exactly when the vhost is registered |
| TunnelServer.Relay.Register | tunnel-server/src/main/java/com/tuuzed/tunnel/server/TunnelServerChannelHandler.java:159 | maps the vhost to the record; nothing else changes |
| TunnelServer.Relay.Unregister | tunnel-server/src/main/java/com/tuuzed/tunnel/server/TunnelServerChannelHandler.java:64 | removes the vhost's entry, and only it |
| TunnelServer.Relay.TcpSessionChannel | tunnel-server/src/main/java/com/tuuzed/tunnel/server/TunnelServerChannelHandler.java:211-213 | the session channel when the token names a TCP tunnel, else none |
| TunnelServer.Relay.HttpSessionChannel | tunnel-server/src/main/java/com/tuuzed/tunnel/server/TunnelServerChannelHandler.java:220-222 | the session channel when some HTTP tunnel has the token, else none |
| TunnelServer.Relay.GetSessionChannel | tunnel-server/src/main/java/com/tuuzed/tunnel/server/TunnelServerChannelHandler.java:254 | the session channel of the given record's tunnel, if any |
| TunnelServer.ServerChannelHandler.ChannelRead | tunnel-server/src/main/java/com/tuuzed/tunnel/server/TunnelServerChannelHandler.java:81-101 | slot, directories and effect log become what the dispatch transition gives |
| TunnelServer.ServerChannelHandler.HandlePing | tunnel-server/src/main/java/com/tuuzed/tunnel/server/TunnelServerChannelHandler.java:106-108 | appends one pong and changes nothing else |
| TunnelServer.ServerChannelHandler.HandleRequest | tunnel-server/src/main/java/com/tuuzed/tunnel/server/TunnelServerChannelHandler.java:113-196 | interceptor, token, slot, bind or register and reply in the source's order, ending in the request transition's state |
| TunnelServer.ServerChannelHandler.HandleTransfer | tunnel-server/src/main/java/com/tuuzed/tunnel/server/TunnelServerChannelHandler.java:201-232 | appends the effects of the transfer transition |
| TunnelServer.ServerChannelHandler.HandleLocalConnected | tunnel-server/src/main/java/com/tuuzed/tunnel/server/TunnelServerChannelHandler.java:237-239 | emits nothing |
| TunnelServer.ServerChannelHandler.HandleLocalDisconnect | tunnel-server/src/main/java/com/tuuzed/tunnel/server/TunnelServerChannelHandler.java:244-259 | appends the effects of the local-disconnect transition |
| TunnelServer.ServerChannelHandler.ChannelInactive | tunnel-server/src/main/java/com/tuuzed/tunnel/server/TunnelServerChannelHandler.java:49-72 | releases the slot's tunnel by token or vhost and clears the slot |
| TunnelServer.ServerChannelHandler.ExceptionCaught | tunnel-server/src/main/java/com/tuuzed/tunnel/server/TunnelServerChannelHandler.java:75-78 | appends an empty write followed by close of the control channel |
| ClientDaemon.OnRead | core/client/src/main/kotlin/lighttunnel/server/TunnelClientDaemonChannelHandler.kt:49-63 | only RESPONSE_OK touches the attached connection; only RESPONSE_OK, RESPONSE_ERR and FORCE_OFF change the stored request or the extra |
| ClientDaemon.OnResponseOk | core/client/src/main/kotlin/lighttunnel/server/TunnelClientDaemonChannelHandler.kt:74-84 | the table is kept and there is one effect; a close iff the data does not decode; otherwise the tunnel id and request are stored, the session id kept, the extra cleared, and a connection stays attached iff one was |
| ClientDaemon.OnResponseErr | core/client/src/main/kotlin/lighttunnel/server/TunnelClientDaemonChannelHandler.kt:88-96 | tunnel id and request cleared, a non-forced extra with the text recorded, session id, connection and table kept, and the channel closed |
| ClientDaemon.OnForceOff | core/client/src/main/kotlin/lighttunnel/server/TunnelClientDaemonChannelHandler.kt:172-178 | tunnel id and request cleared, a forced extra recorded, connection and table kept, FORCE_OFF_REPLY then close |
| ClientDaemon.OnTransfer | core/client/src/main/kotlin/lighttunnel/server/TunnelClientDaemonChannelHandler.kt:100-127 | both ids recorded and nothing else in the attributes; the table only gains the frame's key; no effect or two; a local write carries the data to the channel stored under the frame's key |
| ClientDaemon.OnRemoteConnected | core/client/src/main/kotlin/lighttunnel/server/TunnelClientDaemonChannelHandler.kt:131-151 | both ids recorded; the table only gains the frame's key; at most a report and an acquire |
| ClientDaemon.OnRemoteDisconnect | core/client/src/main/kotlin/lighttunnel/server/TunnelClientDaemonChannelHandler.kt:155-168 | attributes and connection kept; the table loses exactly the frame's key; at most a report and a flush-and-close |
| ClientDaemon.OnInactive | core/client/src/main/kotlin/lighttunnel/server/TunnelClientDaemonChannelHandler.kt:29-40 | attributes and connection kept, table entries only removed, and the last effect reports connection and extra |
| ClientDaemon.OnException | core/client/src/main/kotlin/lighttunnel/server/TunnelClientDaemonChannelHandler.kt:43-46 | the client state is unchanged and the only effect flushes and closes the control channel |
| ClientDaemon.PingAnswered | core/client/src/main/kotlin/lighttunnel/server/TunnelClientDaemonChannelHandler.kt:67-70 | a ping is answered by one pong and changes nothing |
| ClientDaemon.ResponseOkOpens | core/client/src/main/kotlin/lighttunnel/server/TunnelClientDaemonChannelHandler.kt:74-84 | RESPONSE_OK sets the tunnel id and the decoded request, clears the extra, sets the attached connection's final request and reports it; undecodable data changes nothing and closes |
| ClientDaemon.ResponseErrCloses | core/client/src/main/kotlin/lighttunnel/server/TunnelClientDaemonChannelHandler.kt:88-96 | RESPONSE_ERR clears tunnel id and request, records extra(false, text) and closes; nothing else changes |
| ClientDaemon.ForceOffCloses | core/client/src/main/kotlin/lighttunnel/server/TunnelClientDaemonChannelHandler.kt:172-178 | FORCE_OFF clears tunnel id and request, records extra(true, "ForceOff") and replies FORCE_OFF_REPLY then closes |
| ClientDaemon.TransferRouting | core/client/src/main/kotlin/lighttunnel/server/TunnelClientDaemonChannelHandler.kt:100-127 | TRANSFER records both ids, acquires a local channel iff the stored request is TCP, HTTP or HTTPS, writes the data to it on arrival and replies LOCAL_DISCONNECT with the same ids when it cannot arrive |
| ClientDaemon.RemoteConnectedTolerant | core/client/src/main/kotlin/lighttunnel/server/TunnelClientDaemonChannelHandler.kt:131-151 | REMOTE_CONNECTED with undecodable data reports nothing and does not fail; it acquires a local channel iff a request is stored |
| ClientDaemon.RemoteDisconnectRemovesOne | core/client/src/main/kotlin/lighttunnel/server/TunnelClientDaemonChannelHandler.kt:155-168 | REMOTE_DISCONNECT removes exactly its entry, flushes and closes that channel iff present, and changes no other entry |
| ClientDaemon.InactiveCleanup | core/client/src/main/kotlin/lighttunnel/server/TunnelClientDaemonChannelHandler.kt:29-40 | with both ids set, disconnect removes that key and closes its local channel when present, then reports connection and extra; otherwise it only reports; the report is always once and last |
| ClientDaemon.ErrorReportedOnInactive | core/client/src/main/kotlin/lighttunnel/server/TunnelClientDaemonChannelHandler.kt:88-96 | after RESPONSE_ERR the disconnect report carries extra(false, the server's text) |
| ClientDaemon.ForceOffSticks | core/client/src/main/kotlin/lighttunnel/server/TunnelClientDaemonChannelHandler.kt:172-178 | after FORCE_OFF, until a decodable RESPONSE_OK or a RESPONSE_ERR, the extra stays forced-off, no request is stored and no local channel is acquired or written |
| ClientDaemon.LocalTcpClient.AcquireLocalChannel | core/client/src/main/kotlin/lighttunnel/server/TunnelClientDaemonChannelHandler.kt:107-121 | an arrived local channel is kept under the ids; otherwise the table is unchanged |
| ClientDaemon.LocalTcpClient.RemoveLocalChannel | core/client/src/main/kotlin/lighttunnel/server/TunnelClientDaemonChannelHandler.kt:165-167 | removes the entry and returns its channel, or none when absent |
| ClientDaemon.ClientDaemonHandler.ChannelRead | core/client/src/main/kotlin/lighttunnel/server/TunnelClientDaemonChannelHandler.kt:49-63 | attributes, connection, table and effect log become what the dispatch transition gives |
| ClientDaemon.ClientDaemonHandler.HandleResponseOk | core/client/src/main/kotlin/lighttunnel/server/TunnelClientDaemonChannelHandler.kt:74-84 | ends in the RESPONSE_OK transition's state |
| ClientDaemon.ClientDaemonHandler.HandleResponseErr | core/client/src/main/kotlin/lighttunnel/server/TunnelClientDaemonChannelHandler.kt:88-96 | ends in the RESPONSE_ERR transition's state |
| ClientDaemon.ClientDaemonHandler.HandleTransfer | core/client/src/main/kotlin/lighttunnel/server/TunnelClientDaemonChannelHandler.kt:100-127 | ends in the TRANSFER transition's state |
| ClientDaemon.ClientDaemonHandler.HandleRemoteConnected | core/client/src/main/kotlin/lighttunnel/server/TunnelClientDaemonChannelHandler.kt:131-151 | ends in the REMOTE_CONNECTED transition's state |
| ClientDaemon.ClientDaemonHandler.HandleRemoteDisconnect | core/client/src/main/kotlin/lighttunnel/server/TunnelClientDaemonChannelHandler.kt:155-168 | ends in the REMOTE_DISCONNECT transition's state |
| ClientDaemon.ClientDaemonHandler.HandleForceOff | core/client/src/main/kotlin/lighttunnel/server/TunnelClientDaemonChannelHandler.kt:172-178 | ends in the FORCE_OFF transition's state |
| ClientDaemon.ClientDaemonHandler.ChannelInactive | core/client/src/main/kotlin/lighttunnel/server/TunnelClientDaemonChannelHandler.kt:29-40 | ends in the disconnect transition's state |
| ClientDaemon.ClientDaemonHandler.ExceptionCaught | core/client/src/main/kotlin/lighttunnel/server/TunnelClientDaemonChannelHandler.kt:43-46 | appends an empty write followed by close; nothing else changes |
| TunnelRequests.CopyTcp | core/server/src/main/kotlin/lighttunnel/server/TunnelRequestInterceptorDefaultImpl.kt:23-25 | the copy has the new port and otherwise equals the original |
| RequestInterceptor.HandleTunnelRequest | core/server/src/main/kotlin/lighttunnel/server/TunnelRequestInterceptorDefaultImpl.kt:16-35 | a configured token that differs rejects any request; non-TCP passes unchanged; a named TCP port is returned unchanged or rejected with the as-written port message, rejected iff a whitelist exists and excludes it; port 0 becomes the port picked from the whitelist or "1024-65535" |
| RequestInterceptor.AdmittedDiffersOnlyInPort | core/server/src/main/kotlin/lighttunnel/server/TunnelRequestInterceptorDefaultImpl.kt:20-34 | an admitted request differs from the one sent at most in its remote port |
| RequestInterceptor.AdmitIdempotent | core/server/src/main/kotlin/lighttunnel/server/TunnelRequestInterceptorDefaultImpl.kt:16-35 | admitting an admitted request again returns it unchanged, when the port picker keeps to its range |
| RequestInterceptor.BadAuthMessage | core/server/src/main/kotlin/lighttunnel/server/TunnelRequestInterceptorDefaultImpl.kt:17-19 | the bad-token rejection starts with "request(<request>)" and ends with "Bad Auth Token(<token>)" |
| RequestInterceptor.PortNotAllowedMessageAsWritten | core/server/src/main/kotlin/lighttunnel/server/TunnelRequestInterceptorDefaultImpl.kt:28 | the whitelist rejection as the template is written ends with "remotePort(<request>.remotePort) Not allowed to use." |
| RequestInterceptor.PortNotAllowedMessage | core/server/src/main/kotlin/lighttunnel/server/TunnelRequestInterceptorDefaultImpl.kt:28 | the corrected whitelist rejection (see "## Findings") ends with "remotePort(<port>) Not allowed to use."; the code as written does not |
| RequestInterceptor.PortMessageAsWrittenOmitsPort | core/server/src/main/kotlin/lighttunnel/server/TunnelRequestInterceptorDefaultImpl.kt:28 | the template as written does not end by naming the port: for port 7 and a request shown as "R" it ends "remotePort(R.remotePort) …" |

## Left out

- Netty plumbing. Buffer allocation and release, the pipeline and listener sequencing are not modelled. "Write, then close once flushed" is one effect in the log.
- Collaborators whose source is not part of this model. These are `TcpServer`, `HttpServer`, `ServerTunnelSessions`, `TokenProducer`, the `UserTunnel` manager and `LocalTcpClient`. Each is modelled as a map or a counter, with the lookup and update contracts the handlers rely on.
- Downstream listeners. The listeners that accept user connections and fill the session maps are not modelled. The maps are state the handlers only read.
- Closing a tunnel's downstream connections on shutdown. This happens inside `shutdownTunnel` and `unregister`, and is not modelled.
- `ProtoRequest`, `TunnelRequest` and `RemoteConnection` byte serialisation. Each is a function parameter, and no round trip is claimed.
- The client's `TunnelRequest` and the server's `ProtoRequest` are separate datatypes. They are not related to each other.
- UTF-8 encoding and decoding of error texts. Texts are carried as strings.
- LegacyTunnelServer.HeadText: decodes the head as ISO-8859-1, one character per byte. `new String(head)` uses the platform's default charset, usually UTF-8, so a head holding bytes of 128 or more (a non-ASCII address) decodes differently in the source; ASCII heads agree.
- `Integer.parseInt` is modelled for ASCII digits only. Other Unicode digits are not accepted.
- `String.split` is modelled only for the two literal separators the parser uses, ":" and "<-". Neither contains a regex metacharacter.
- `TunnelServer.Relay.NextToken` and `LegacyTunnelServer.UserTunnelManager.OpenUserTunnel`: the token counter is an unbounded integer, so 64-bit wrap-around is not modelled. The encoding properties are stated for tokens that fit in a long.
- Port binding is not modelled. Whether a port can be bound is a parameter (`listenOk`, `portBound`). A failed bind in the newer server is taken to be reported as a `ProtoException` carrying the given text.
- `PortUtil.getAvailableTcpPort` probes the operating system, and `PortUtil.hasInPortRange` is not part of this model. Both are function parameters.
- Listener internals. The state listener, the remote-connection listener and `onUnableArrive`'s default body are recorded only as effects.
- The local channel's connection attempt is asynchronous. Its outcome, arrival or failure, is a parameter of the message. An arrived channel is assumed to be kept in the table under the frame's ids.
- Concurrency between connections and the event loop is not modelled. Each handler call is one atomic step.
- Logging is not modelled.
- `TunnelServerTest.kt` and `SslTunnelDaemonArgs.kt` are not part of this model. They start a real server, or only hold configuration.

## Findings

| source | as written | input that shows it | evidently intended | confidence | as-written member | corrected member |
|---|---|---|---|---|---|---|
| core/server/src/main/kotlin/lighttunnel/server/TunnelRequestInterceptorDefaultImpl.kt:28 | the template `remotePort($tunnelRequest.remotePort)` interpolates the whole request and then the literal text ".remotePort" | a TCP request for port 7, outside a configured whitelist, whose string form is "R": the message ends "remotePort(R.remotePort) Not allowed to use." | `${tunnelRequest.remotePort}`, naming the rejected port: "remotePort(7) Not allowed to use." | high; not executed | RequestInterceptor.PortMessageAsWrittenOmitsPort | RequestInterceptor.PortNotAllowedMessage |

`RequestInterceptor.HandleTunnelRequest` keeps the template as written: a
refused port yields the text of `RequestInterceptor.PortNotAllowedMessageAsWritten`.
The corrected text, `RequestInterceptor.PortNotAllowedMessage`, is defined
and proved beside it so that the two can be compared.
