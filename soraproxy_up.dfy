/**
  `soraproxy up`: check that a session exists, build the Unified Endpoint
  client, and serve a single wildcard handler on `address:port`. The handler
  forwards POST requests and relays the upstream body; every other method
  gets a local message. What the handler writes is kept as the sequence of
  strings handed to the response writer.
*/
module Proxy {
  import opened Wrappers
  import opened GoStrings
  import opened Http
  import Tunnel
  import UnifiedEndpoint
  import opened Command

  type Uint16 = x: nat | x < 0x1_0000

  const DefaultPort: Uint16 := 8888
  const DefaultAddress := "127.0.0.1"

  /** The listen address, `address:port`. */
  function BindAddress(address: string, port: Uint16): string
  {
    address + ":" + Decimal(port)
  }

  /** A colon-free address and the port can be read back from the listen address. */
  lemma BindAddressRoundTrip(address: string, port: Uint16)
    requires ':' !in address
    ensures Split(BindAddress(address, port), ':') == [address, Decimal(port)]
    ensures ParseDecimal(Split(BindAddress(address, port), ':')[1]) == port
  {
    DecimalOnlyDigits(port, ':');
    assert Join([address, Decimal(port)], ':') == BindAddress(address, port);
    SplitJoin([address, Decimal(port)], ':');
    DecimalRoundTrip(port);
  }

  lemma DefaultBindAddress()
    ensures BindAddress(DefaultAddress, DefaultPort) == "127.0.0.1:8888"
  {
    assert Decimal(8) == "8";
    assert Decimal(88) == "88";
    assert Decimal(888) == "888";
  }

  /** The concatenation of everything written, in order. */
  function Concat(ws: seq<Bytes>): Bytes
  {
    if ws == [] then "" else Concat(ws[..|ws| - 1]) + ws[|ws| - 1]
  }

  lemma {:induction false} ConcatAppend(ws: seq<Bytes>, vs: seq<Bytes>)
    ensures Concat(ws + vs) == Concat(ws) + Concat(vs)
    decreases |vs|
  {
    if vs == [] {
      assert ws + vs == ws;
    } else {
      var init := vs[..|vs| - 1];
      assert (ws + vs)[..|ws + vs| - 1] == ws + init;
      ConcatAppend(ws, init);
    }
  }

  /** The response writer: the strings written so far, and the status code if one was set. */
  class ResponseWriter {
    var writes: seq<Bytes>
    var status: Option<int>

    constructor ()
      ensures writes == [] && status == None
    {
      writes := [];
      status := None;
    }

    /** The status that goes out: 200 unless one was set. */
    function StatusCode(): int
      reads this
    {
      if status.Some? then status.value else 200
    }

    function Output(): Bytes
      reads this
    {
      Concat(writes)
    }

    /** `io.WriteString(w, s)`. */
    method WriteString(s: Bytes)
      modifies this
      ensures writes == old(writes) + [s] && status == old(status)
    {
      writes := writes + [s];
    }
  }

  /** The parts of an incoming request the handler reads. */
  datatype Inbound = Inbound(httpMethod: string, path: string, body: Bytes)

  function Unsupported(httpMethod: string): string
  {
    "unsupported HTTP method: " + httpMethod
  }

  function ForwardFailed(err: string): string
  {
    "failed to get response from Unified Endpoint: " + err
  }

  function ReadFailed(err: string): string
  {
    "failed to read response from Unified Endpoint: " + err
  }

  /**
    What one call of the handler writes, which request reaches the upstream
    transport, and whether the handler stops early. After a failed forward
    the Go handler goes on to read the body of a nil response; the model
    stops after the message it writes first.
  */
  datatype Reply = Reply(writes: seq<Bytes>, forwarded: Option<Request>, aborted: bool)

  /** The outcome of forwarding a POST to the Unified Endpoint client. */
  function Forward(headers: seq<string>, r: Inbound, t: Transport): (o: Outcome)
    ensures o.sent.Some? <==> t.newRequestErr.None?
    ensures o.sent.Some? ==>
      o.sent.value.httpMethod == "POST" && o.sent.value.url == UnifiedEndpoint.RequestUrl(r.path)
      && o.sent.value.body == r.body
  {
    UnifiedEndpoint.DoOutcome(headers, MethodPost, r.path, r.body, t)
  }

  function HandlerReply(headers: seq<string>, r: Inbound, t: Transport): (y: Reply)
    ensures |y.writes| >= 1
    ensures r.httpMethod != MethodPost ==> y == Reply([Unsupported(r.httpMethod), ""], None, false)
    ensures r.httpMethod == MethodPost ==> y.forwarded == Forward(headers, r, t).sent
    ensures y.aborted <==> r.httpMethod == MethodPost && Forward(headers, r, t).result.Failure?
    ensures y.aborted ==> y.writes == [ForwardFailed(Forward(headers, r, t).result.error)]
    ensures r.httpMethod == MethodPost && !y.aborted ==>
      var res := Forward(headers, r, t).result.value;
      y.writes == (if res.bodyErr.Some? then [ReadFailed(res.bodyErr.value)] else []) + [res.body]
  {
    if r.httpMethod != MethodPost then Reply([Unsupported(r.httpMethod), ""], None, false)
    else
      var o := Forward(headers, r, t);
      match o.result
      case Failure(e) => Reply([ForwardFailed(e)], o.sent, true)
      case Success(res) =>
        if res.bodyErr.Some? then Reply([ReadFailed(res.bodyErr.value), res.body], o.sent, false)
        else Reply([res.body], o.sent, false)
  }

  /** For any method but POST the whole output is the message, and nothing is forwarded. */
  lemma {:induction false} NonPostOutput(headers: seq<string>, r: Inbound, t: Transport)
    requires r.httpMethod != "POST"
    ensures Concat(HandlerReply(headers, r, t).writes) == "unsupported HTTP method: " + r.httpMethod
    ensures HandlerReply(headers, r, t).forwarded.None?
  {
    var m := Unsupported(r.httpMethod);
    assert [m, ""][..1] == [m];
    assert [m][..0] == [];
    assert Concat([m]) == "" + m == m;
    assert Concat([m, ""]) == m + "" == m;
  }

  /**
    A POST is forwarded with method POST to the request's path on the
    Unified Endpoint, with the request's body; a successful upstream body is
    relayed byte for byte.
  */
  lemma {:induction false} PostRelaysBody(headers: seq<string>, r: Inbound, t: Transport)
    requires r.httpMethod == "POST" && t.newRequestErr.None?
    requires t.roundTrip.Success? && t.roundTrip.value.statusCode < 400 && t.roundTrip.value.bodyErr.None?
    ensures HandlerReply(headers, r, t).forwarded ==
      Some(Request("POST", UnifiedEndpoint.RequestUrl(r.path), HeaderMap(headers), r.body))
    ensures Concat(HandlerReply(headers, r, t).writes) == t.roundTrip.value.body
  {
    var b := t.roundTrip.value.body;
    assert HandlerReply(headers, r, t).writes == [b];
    assert [b][..0] == [];
  }

  /** A failed forward writes its message before anything else. */
  lemma ForwardFailureFirst(headers: seq<string>, r: Inbound, t: Transport)
    requires r.httpMethod == "POST" && t.newRequestErr.None? && t.roundTrip.Failure?
    ensures HandlerReply(headers, r, t).writes[0] ==
      "failed to get response from Unified Endpoint: " + t.roundTrip.error
  {
  }

  /**
    The wildcard handler: every path reaches it. It appends its writes to
    `w` and never sets a status. When it returns without aborting, what it
    wrote goes out under the status already set (200 on a fresh writer).
  */
  method Handle(client: UnifiedEndpoint.Client, w: ResponseWriter, r: Inbound, t: Transport)
    returns (forwarded: Option<Request>, aborted: bool)
    modifies w
    ensures w.writes == old(w.writes) + HandlerReply(client.headers, r, t).writes
    ensures forwarded == HandlerReply(client.headers, r, t).forwarded
    ensures aborted == HandlerReply(client.headers, r, t).aborted
    ensures w.status == old(w.status)
    ensures w.Output() == old(w.Output()) + Concat(HandlerReply(client.headers, r, t).writes)
  {
    ghost var before := w.writes;
    var body: Bytes := "";
    forwarded, aborted := None, false;
    if r.httpMethod == MethodPost {
      var o := client.Do(r.httpMethod, r.path, r.body, t);
      forwarded := o.sent;
      if o.result.Failure? {
        w.WriteString(ForwardFailed(o.result.error));
        ConcatAppend(before, w.writes[|before|..]);
        assert before + w.writes[|before|..] == w.writes;
        return forwarded, true;
      }
      var res := o.result.value;
      if res.bodyErr.Some? {
        w.WriteString(ReadFailed(res.bodyErr.value));
      }
      body := res.body;
    } else {
      w.WriteString(Unsupported(r.httpMethod));
    }
    w.WriteString(body);
    ConcatAppend(before, w.writes[|before|..]);
    assert before + w.writes[|before|..] == w.writes;
  }

  /**
    One request served on a fresh response writer. A handler that aborts
    (a failed forward, where Go goes on to read a nil response and panics)
    sends no reply, and nothing is promised about it; otherwise the output
    is what the handler writes, under status 200.
  */
  method Serve(client: UnifiedEndpoint.Client, r: Inbound, t: Transport)
    returns (output: Bytes, status: int, aborted: bool)
    ensures aborted == HandlerReply(client.headers, r, t).aborted
    ensures aborted <==> r.httpMethod == MethodPost && Forward(client.headers, r, t).result.Failure?
    ensures !aborted ==> output == Concat(HandlerReply(client.headers, r, t).writes) && status == 200
  {
    var w := new ResponseWriter();
    var forwarded;
    forwarded, aborted := Handle(client, w, r, t);
    assert Concat([]) == "";
    output, status := w.Output(), w.StatusCode();
  }

  /** `newArcUnifiedEndpointClient`: the client, with verbose on exactly when `SORACOM_VERBOSE` is non-empty. */
  method NewClient(privateKey: string, session: Tunnel.Session, mtu: nat, env: Tunnel.Env,
                   headers: seq<string>, verboseEnv: string)
    returns (r: Result<UnifiedEndpoint.Client, string>)
    ensures r.Success? <==> Tunnel.Create(privateKey, session, mtu, env).result.Success?
    ensures r.Failure? ==>
      r.error == Tunnel.OpenFailed + Tunnel.Create(privateKey, session, mtu, env).result.error
    ensures r.Success? ==>
      fresh(r.value) && r.value.headers == headers && r.value.Verbose() == VerboseEnabled(verboseEnv)
  {
    r := UnifiedEndpoint.New(privateKey, session, mtu, env, headers);
    if r.Success? && VerboseEnabled(verboseEnv) {
      r.value.SetVerbose(true);
    }
  }

  /** How the command ends: with a fatal log message, or serving on an address. */
  datatype Launch = Fatal(message: string) | Serving(bindAddress: string, verbose: bool)

  /** Where `soraproxy up` gets to before the server starts. */
  function UpOutcome(config: Config, env: Tunnel.Env, verboseEnv: string, address: string, port: Uint16): (l: Launch)
    ensures config.session.None? ==> l == Fatal(SessionMissing)
    ensures config.session.Some? ==>
      var c := Tunnel.Create(config.privateKey, config.session.value, config.mtu, env);
      if c.result.Failure? then l == Fatal(ClientFailed + Tunnel.OpenFailed + c.result.error)
      else l == Serving(address + ":" + Decimal(port), VerboseEnabled(verboseEnv))
  {
    match config.session
    case None => Fatal(SessionMissing)
    case Some(s) =>
      var c := Tunnel.Create(config.privateKey, s, config.mtu, env);
      if c.result.Failure? then Fatal(ClientFailed + Tunnel.OpenFailed + c.result.error)
      else Serving(BindAddress(address, port), VerboseEnabled(verboseEnv))
  }

  /** Without a session the command stops before the tunnel is consulted. */
  lemma NoSessionIgnoresTunnel(config: Config, env1: Tunnel.Env, env2: Tunnel.Env, verboseEnv: string,
                               address: string, port: Uint16)
    requires config.session.None?
    ensures UpOutcome(config, env1, verboseEnv, address, port) == UpOutcome(config, env2, verboseEnv, address, port)
  {
  }

  /** A failed tunnel reports each layer's prefix in turn. */
  lemma StackFailureMessage(config: Config, env: Tunnel.Env, verboseEnv: string, address: string, port: Uint16)
    requires config.session.Some? && env.netTun.Failure?
    ensures UpOutcome(config, env, verboseEnv, address, port) ==
      Fatal(ClientFailed + Tunnel.OpenFailed + Tunnel.StackFailed + env.netTun.error)
  {
  }

  /** `soraproxy up` up to the point where the server starts, giving back the client it serves with. */
  method Up(config: Config, env: Tunnel.Env, headers: seq<string>, verboseEnv: string, address: string, port: Uint16)
    returns (l: Launch, client: Option<UnifiedEndpoint.Client>)
    ensures l == UpOutcome(config, env, verboseEnv, address, port)
    ensures client.Some? <==> l.Serving?
    ensures client.Some? ==> fresh(client.value) && client.value.headers == headers && client.value.Verbose() == l.verbose
  {
    if config.session.None? {
      return Fatal(SessionMissing), None;
    }
    var c := NewClient(config.privateKey, config.session.value, config.mtu, env, headers, verboseEnv);
    if c.Failure? {
      return Fatal(ClientFailed + c.error), None;
    }
    return Serving(BindAddress(address, port), VerboseEnabled(verboseEnv)), Some(c.value);
  }
}
