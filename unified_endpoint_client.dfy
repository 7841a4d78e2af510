/**
  `ArcUnifiedEndpointHTTPClient`: an HTTP client bound to the fixed SORACOM
  Unified Endpoint address, reached through the tunnel. `Do` takes a method,
  a path and a body; the transport's behaviour is an input (`Transport`).
*/
module UnifiedEndpoint {
  import opened Wrappers
  import opened GoStrings
  import opened Http
  import Tunnel

  const Hostname := "100.127.69.42"
  const Port: nat := 80

  /** The parsed `http://100.127.69.42:80`. */
  function Endpoint(): Url
  {
    Url("http", Hostname, Decimal(Port), "", "", "")
  }

  lemma PortText()
    ensures Decimal(Port) == "80"
  {
    assert Decimal(8) == "8";
  }

  /** The request URL for a path: at most one leading slash is removed, then the path follows the endpoint. */
  function RequestUrl(path: string): (u: string)
    ensures u == "http://100.127.69.42:80/" + TrimPrefix(path, "/")
  {
    PortText();
    var e := Endpoint();
    FormatUrl(e.scheme, e.hostname, e.port, TrimPrefix(path, "/"))
  }

  /** One slash is removed, not two. */
  lemma RequestUrlSlashes(p: string)
    ensures RequestUrl("/" + p) == "http://100.127.69.42:80/" + p
    ensures RequestUrl("//a") == "http://100.127.69.42:80//a"
    ensures RequestUrl("a") == "http://100.127.69.42:80/a"
  {
    assert "//a" == "/" + "/a";
    assert "a"[0] != "/"[0];
  }

  function UnsupportedMethod(httpMethod: string): string
  {
    "unsupported HTTP method " + httpMethod + ". It should be GET or POST"
  }

  /** What `Do` returns and which request reaches the transport. */
  function DoOutcome(headers: seq<string>, httpMethod: string, path: string, body: Bytes, t: Transport): (o: Outcome)
    ensures !IsSupportedMethod(httpMethod) ==> o == Outcome(Failure(UnsupportedMethod(httpMethod)), None)
    ensures o.sent.Some? ==>
      IsSupportedMethod(httpMethod) && o.sent.value == Request(httpMethod, RequestUrl(path), HeaderMap(headers), body)
    ensures IsSupportedMethod(httpMethod) ==> o == Send(httpMethod, RequestUrl(path), headers, body, t)
  {
    if !IsSupportedMethod(httpMethod) then Outcome(Failure(UnsupportedMethod(httpMethod)), None)
    else Send(httpMethod, RequestUrl(path), headers, body, t)
  }

  /** A method other than exactly GET or POST yields an error and no request, whatever the transport would do. */
  lemma RejectsOtherMethods(headers: seq<string>, httpMethod: string, path: string, body: Bytes, t: Transport)
    requires httpMethod != "GET" && httpMethod != "POST"
    ensures DoOutcome(headers, httpMethod, path, body, t).sent.None?
    ensures DoOutcome(headers, httpMethod, path, body, t).result.Failure?
  {
  }

  /** A supported call succeeds exactly when the request is built and the transport answers below 400. */
  lemma DoSucceeds(headers: seq<string>, httpMethod: string, path: string, body: Bytes, t: Transport)
    ensures DoOutcome(headers, httpMethod, path, body, t).result.Success? <==>
      IsSupportedMethod(httpMethod) && t.newRequestErr.None? && t.roundTrip.Success?
      && t.roundTrip.value.statusCode < StatusBadRequest
  {
  }

  class Client {
    /** The tunnel the transport dials through. */
    const tunnel: Tunnel.Tunnel
    const headers: seq<string>
    var verbose: bool

    constructor (tunnel: Tunnel.Tunnel, headers: seq<string>)
      ensures this.tunnel == tunnel && this.headers == headers && !verbose
    {
      this.tunnel := tunnel;
      this.headers := headers;
      verbose := false;
    }

    /** `Do`: check the method, then build the request and send it. */
    method Do(httpMethod: string, path: string, body: Bytes, t: Transport) returns (o: Outcome)
      ensures o == DoOutcome(headers, httpMethod, path, body, t)
    {
      if !(httpMethod == MethodGet || httpMethod == MethodPost) {
        return Outcome(Failure(UnsupportedMethod(httpMethod)), None);
      }
      o := Perform(httpMethod, RequestUrl(path), headers, body, t);
    }

    method SetVerbose(v: bool)
      modifies this
      ensures verbose == v
    {
      verbose := v;
    }

    function Verbose(): bool
      reads this
    {
      verbose
    }
  }

  /** `NewArcUnifiedEndpointHTTPClient`: create the tunnel, then a client with verbose off. */
  method New(privateKey: string, session: Tunnel.Session, mtu: nat, env: Tunnel.Env, headers: seq<string>)
    returns (r: Result<Client, string>)
    ensures r.Success? <==> Tunnel.Create(privateKey, session, mtu, env).result.Success?
    ensures r.Failure? ==>
      r.error == Tunnel.OpenFailed + Tunnel.Create(privateKey, session, mtu, env).result.error
    ensures r.Success? ==>
      fresh(r.value) && r.value.headers == headers && !r.value.Verbose()
      && r.value.tunnel.State() == Tunnel.Opened(Tunnel.Create(privateKey, session, mtu, env).result.value)
  {
    var t := Tunnel.Open(privateKey, session, mtu, env);
    if t.Failure? {
      return Failure(Tunnel.OpenFailed + t.error);
    }
    var c := new Client(t.value, headers);
    return Success(c);
  }
}
