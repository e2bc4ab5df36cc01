/**
  The server's default admission policy for tunnel requests
  (TunnelRequestInterceptorDefaultImpl): an optional shared auth token that
  every request must present, and for TCP tunnels an optional whitelist of
  remote ports, with a free port chosen when the client asks for port 0.
*/
module RequestInterceptor {
  import opened Wire
  import opened JavaText
  import opened TunnelRequests

  /** The interceptor's two settings; `None` is Kotlin's null. */
  datatype Config = Config(authToken: Option<string>, allowPorts: Option<string>)

  /**
    What the policy consults but does not define: PortUtil.getAvailableTcpPort
    (which probes the operating system), PortUtil.hasInPortRange, and the
    request's toString used in error texts.
  */
  datatype Env = Env(
    availableTcpPort: string -> int,
    hasInPortRange: (string, int) -> bool,
    describe: TunnelRequest -> string)

  const DEFAULT_PORT_RANGE: string := "1024-65535"

  /** A Kotlin string template prints null as "null". */
  function ShowToken(token: Option<string>): string {
    match token
    case None => "null"
    case Some(t) => t
  }

  /** The text names the request and ends with the token it presented, "null" when it had none. */
  function BadAuthMessage(env: Env, req: TunnelRequest): (msg: string)
    ensures var head := "request(" + env.describe(req) + ")";
      |head| <= |msg| && msg[..|head|] == head
    ensures var tail := "Bad Auth Token(" + ShowToken(req.authToken) + ")";
      |tail| <= |msg| && msg[|msg| - |tail|..] == tail
  {
    var head := "request(" + env.describe(req) + ")";
    var tail := "Bad Auth Token(" + ShowToken(req.authToken) + ")";
    var msg := head + ", " + tail;
    assert msg[..|head|] == head;
    assert msg[|msg| - |tail|..] == tail;
    msg
  }

  /**
    The port-rejection text as the template is written: `$tunnelRequest.remotePort`
    interpolates the request itself, so where the port belongs the text shows
    the request again, followed by ".remotePort".
  */
  function PortNotAllowedMessageAsWritten(env: Env, req: TunnelRequest): (msg: string)
    ensures var tail := "remotePort(" + env.describe(req) + ".remotePort) Not allowed to use.";
      |tail| <= |msg| && msg[|msg| - |tail|..] == tail
  {
    var tail := "remotePort(" + env.describe(req) + ".remotePort) Not allowed to use.";
    var msg := "request(" + env.describe(req) + "), " + tail;
    assert msg[|msg| - |tail|..] == tail;
    msg
  }

  /** The port-rejection text naming the port, as `${tunnelRequest.remotePort}` would. */
  function PortNotAllowedMessage(env: Env, req: TunnelRequest): (msg: string)
    ensures var tail := "remotePort(" + IntToString(req.remotePort) + ") Not allowed to use.";
      |tail| <= |msg| && msg[|msg| - |tail|..] == tail
  {
    var tail := "remotePort(" + IntToString(req.remotePort) + ") Not allowed to use.";
    var msg := "request(" + env.describe(req) + "), " + tail;
    assert msg[|msg| - |tail|..] == tail;
    msg
  }

  /** With the request shown as "R", the written template does not end by naming port 7. */
  lemma PortMessageAsWrittenOmitsPort()
    ensures var env := Env(_ => 0, (_, _) => false, _ => "R");
      var req := TunnelRequest(TCP, "", 0, 7, None, "");
      var tail := "remotePort(" + IntToString(7) + ") Not allowed to use.";
      var written := PortNotAllowedMessageAsWritten(env, req);
      |tail| <= |written| && written[|written| - |tail|..] != tail
  {
    var env := Env(_ => 0, (_, _) => false, _ => "R");
    var req := TunnelRequest(TCP, "", 0, 7, None, "");
    assert IntToString(7) == "7";
    var tail := "remotePort(" + IntToString(7) + ") Not allowed to use.";
    var written := PortNotAllowedMessageAsWritten(env, req);
    assert |tail| == 33 && tail[0] == 'r';
    assert |written| == 56 && written[23] == 'R';
    assert written[|written| - |tail|..][0] == 'R';
  }

  predicate AuthRejects(cfg: Config, req: TunnelRequest) {
    cfg.authToken.Some? && cfg.authToken != req.authToken
  }

  /**
    handleTunnelRequest: reject a wrong or missing auth token when one is
    configured; for TCP, replace port 0 by a free port from the whitelist (or
    from 1024-65535 without one), and reject a named port outside a
    configured whitelist; everything else passes unchanged.
  */
  function HandleTunnelRequest(cfg: Config, env: Env, req: TunnelRequest): (r: Result<TunnelRequest, string>)
    ensures AuthRejects(cfg, req) ==> r == Err(BadAuthMessage(env, req))
    ensures !AuthRejects(cfg, req) && req.tunnelType != TCP ==> r == Ok(req)
    ensures !AuthRejects(cfg, req) && req.tunnelType == TCP && req.remotePort != 0 ==>
      (r == Ok(req) || r == Err(PortNotAllowedMessageAsWritten(env, req))) &&
      (r.Err? <==> cfg.allowPorts.Some? && !env.hasInPortRange(cfg.allowPorts.value, req.remotePort))
    ensures !AuthRejects(cfg, req) && req.tunnelType == TCP && req.remotePort == 0 ==>
      r.Ok? && r.value == req.(remotePort := r.value.remotePort)
      && r.value.remotePort == env.availableTcpPort(if cfg.allowPorts.Some? then cfg.allowPorts.value else DEFAULT_PORT_RANGE)
  {
    if AuthRejects(cfg, req) then Err(BadAuthMessage(env, req))
    else match req.tunnelType
      case TCP =>
        if req.remotePort == 0 then
          var range := if cfg.allowPorts.Some? then cfg.allowPorts.value else DEFAULT_PORT_RANGE;
          Ok(CopyTcp(req, env.availableTcpPort(range)))
        else if cfg.allowPorts.Some? && !env.hasInPortRange(cfg.allowPorts.value, req.remotePort) then
          Err(PortNotAllowedMessageAsWritten(env, req))
        else Ok(req)
      case _ => Ok(req)
  }

  /** An admitted request differs from the one sent at most in its remote port. */
  lemma AdmittedDiffersOnlyInPort(cfg: Config, env: Env, req: TunnelRequest)
    ensures var r := HandleTunnelRequest(cfg, env, req);
      r.Ok? ==> r.value.(remotePort := req.remotePort) == req
  {
  }

  /** Whether the port picker stays inside the range it is asked for and never answers 0. */
  ghost predicate PickerRespectsRange(env: Env, range: string) {
    env.availableTcpPort(range) != 0 && env.hasInPortRange(range, env.availableTcpPort(range))
  }

  /**
    Admitting an admitted request again returns it unchanged, when the port
    picker keeps to the whitelist it is given.
  */
  lemma AdmitIdempotent(cfg: Config, env: Env, req: TunnelRequest)
    requires cfg.allowPorts.Some? ==> PickerRespectsRange(env, cfg.allowPorts.value)
    requires cfg.allowPorts.None? ==> env.availableTcpPort(DEFAULT_PORT_RANGE) != 0
    ensures var r := HandleTunnelRequest(cfg, env, req);
      r.Ok? ==> HandleTunnelRequest(cfg, env, r.value) == r
  {
    var r := HandleTunnelRequest(cfg, env, req);
    if r.Ok? {
      assert r.value.authToken == req.authToken;
      assert r.value.tunnelType == req.tunnelType;
    }
  }
}
