/**
  The tunnel request a client sends to open a tunnel, as the client handler
  stores it and the server-side interceptor inspects it. Only the fields those
  two read are kept; how the request is turned into bytes and back is not part
  of this model.
*/
module TunnelRequests {
  import opened Wire

  datatype TunnelType = TCP | HTTP | HTTPS | OtherType(tag: int)

  datatype TunnelRequest = TunnelRequest(
    tunnelType: TunnelType,
    localAddr: string,
    localPort: int,
    remotePort: int,
    authToken: Option<string>,
    host: string)

  /** Kotlin's `copyTcp(remotePort = port)`: the same request with another remote port. */
  function CopyTcp(req: TunnelRequest, port: int): (r: TunnelRequest)
    ensures r.remotePort == port
    ensures r.(remotePort := req.remotePort) == req
  {
    req.(remotePort := port)
  }
}
