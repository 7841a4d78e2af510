/**
  `ArcHTTPClient`: an HTTP client bound to one caller-supplied URL, reached
  through the tunnel. `Do` takes only a method and a body, so every request
  goes to the same URL.
*/
module ArcHttp {
  import opened Wrappers
  import opened GoStrings
  import opened Http
  import Tunnel

  /** The request URL rebuilt from the target's scheme, hostname, port and path, one leading slash removed. */
  function TargetUrl(u: Url): (s: string)
    ensures HasPrefix(u.path, "/") ==> s == u.scheme + "://" + u.hostname + ":" + u.port + u.path
    ensures !HasPrefix(u.path, "/") ==> s == u.scheme + "://" + u.hostname + ":" + u.port + "/" + u.path
  {
    var s := FormatUrl(u.scheme, u.hostname, u.port, TrimPrefix(u.path, "/"));
    assert HasPrefix(u.path, "/") ==> u.path == "/" + TrimPrefix(u.path, "/");
    s
  }

  /** The query and the fragment of the target do not reach the request URL. */
  lemma TargetUrlIgnores(u: Url, rawQuery: string, fragment: string)
    ensures TargetUrl(u.(rawQuery := rawQuery, fragment := fragment)) == TargetUrl(u)
  {
  }

  /** A target without a port keeps the colon and an empty port. */
  lemma TargetUrlNoPort(scheme: string, hostname: string, p: string)
    ensures TargetUrl(Url(scheme, hostname, "", "/" + p, "", "")) == scheme + "://" + hostname + ":/" + p
  {
    assert ("/" + p)[1..] == p;
  }

  function UnsupportedMethod(httpMethod: string): string
  {
    "unsupported HTTP method " + httpMethod + ". It should be GET, POST"
  }

  /** What `Do` returns and which request reaches the transport. */
  function DoOutcome(url: Url, headers: seq<string>, httpMethod: string, body: Bytes, t: Transport): (o: Outcome)
    ensures !IsSupportedMethod(httpMethod) ==> o == Outcome(Failure(UnsupportedMethod(httpMethod)), None)
    ensures o.sent.Some? ==>
      IsSupportedMethod(httpMethod) &&
      o.sent.value == Request(httpMethod, TargetUrl(url), HeaderMap(headers), body)
    ensures IsSupportedMethod(httpMethod) ==> o == Send(httpMethod, TargetUrl(url), headers, body, t)
  {
    if !IsSupportedMethod(httpMethod) then Outcome(Failure(UnsupportedMethod(httpMethod)), None)
    else Send(httpMethod, TargetUrl(url), headers, body, t)
  }

  /** Any two requests one client sends go to the same URL. */
  lemma SameUrl(url: Url, headers: seq<string>,
                m1: string, b1: Bytes, t1: Transport, m2: string, b2: Bytes, t2: Transport)
    requires DoOutcome(url, headers, m1, b1, t1).sent.Some?
    requires DoOutcome(url, headers, m2, b2, t2).sent.Some?
    ensures DoOutcome(url, headers, m1, b1, t1).sent.value.url == DoOutcome(url, headers, m2, b2, t2).sent.value.url
  {
  }

  /** A method other than exactly GET or POST yields an error and no request. */
  lemma RejectsOtherMethods(url: Url, headers: seq<string>, httpMethod: string, body: Bytes, t: Transport)
    requires httpMethod != "GET" && httpMethod != "POST"
    ensures DoOutcome(url, headers, httpMethod, body, t).sent.None?
    ensures DoOutcome(url, headers, httpMethod, body, t).result.Failure?
  {
  }

  class Client {
    /** The tunnel the transport dials through. */
    const tunnel: Tunnel.Tunnel
    const url: Url
    const headers: seq<string>
    var verbose: bool

    constructor (tunnel: Tunnel.Tunnel, url: Url, headers: seq<string>)
      ensures this.tunnel == tunnel && this.url == url && this.headers == headers && !verbose
    {
      this.tunnel := tunnel;
      this.url := url;
      this.headers := headers;
      verbose := false;
    }

    /** `Do`: check the method, then build the request for the target URL and send it. */
    method Do(httpMethod: string, body: Bytes, t: Transport) returns (o: Outcome)
      ensures o == DoOutcome(url, headers, httpMethod, body, t)
    {
      if !(httpMethod == MethodGet || httpMethod == MethodPost) {
        return Outcome(Failure(UnsupportedMethod(httpMethod)), None);
      }
      o := Perform(httpMethod, TargetUrl(url), headers, body, t);
    }

    method SetVerbose(v: bool)
      modifies this
      ensures verbose == v
    {
      verbose := v;
    }

    function Verbose(): bool
      reads this
    {
      verbose
    }
  }

  /** `NewArcHTTPClient`: create the tunnel, then a client for `url` with verbose off. */
  method New(privateKey: string, session: Tunnel.Session, mtu: nat, env: Tunnel.Env, url: Url, headers: seq<string>)
    returns (r: Result<Client, string>)
    ensures r.Success? <==> Tunnel.Create(privateKey, session, mtu, env).result.Success?
    ensures r.Failure? ==>
      r.error == Tunnel.OpenFailed + Tunnel.Create(privateKey, session, mtu, env).result.error
    ensures r.Success? ==>
      fresh(r.value) && r.value.url == url && r.value.headers == headers && !r.value.Verbose()
      && r.value.tunnel.State() == Tunnel.Opened(Tunnel.Create(privateKey, session, mtu, env).result.value)
  {
    var t := Tunnel.Open(privateKey, session, mtu, env);
    if t.Failure? {
      return Failure(Tunnel.OpenFailed + t.error);
    }
    var c := new Client(t.value, url, headers);
    return Success(c);
  }
}
