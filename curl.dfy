/**
  `soratun curl <url>`: check that a session exists, build an `ArcHTTPClient`
  for the URL, choose the body, send one request and print the response
  body. Standard input, files, the URL parser, the tunnel and the transport
  are foreign; what they give is an input (`CurlEnv`).
*/
module Curl {
  import opened Wrappers
  import opened GoStrings
  import opened Http
  import opened Command
  import Tunnel
  import ArcHttp

  const DefaultMethod := "GET"
  const DefaultData := ""

  const BodyFailed := "Failed to get body to send: "

  /** Standard input: whether it is a character device (or the error of `Stat`), and what reading it gives. */
  datatype Stdin = Stdin(isCharDevice: Result<bool, string>, contents: Result<Bytes, string>)

  datatype BodySource = FromStdin | FromFile(name: string) | FromData

  /** Where the body came from (none when `Stat` failed) and the body or the error. */
  datatype Body = Body(source: Option<BodySource>, result: Result<Bytes, string>)

  /**
    `getBody`: piped standard input first, then a file named by `--data @name`,
    then the literal `--data` value.
  */
  function GetBody(data: string, stdin: Stdin, readFile: string -> Result<Bytes, string>): (b: Body)
    ensures stdin.isCharDevice.Failure? ==> b == Body(None, Failure(stdin.isCharDevice.error))
    ensures stdin.isCharDevice == Success(false) ==> b == Body(Some(FromStdin), stdin.contents)
    ensures stdin.isCharDevice == Success(true) && HasPrefix(data, "@") ==>
      b.source.Some? && b.source.value.FromFile? && "@" + b.source.value.name == data
      && b.result == readFile(b.source.value.name)
    ensures stdin.isCharDevice == Success(true) && !HasPrefix(data, "@") ==> b == Body(Some(FromData), Success(data))
  {
    match stdin.isCharDevice
    case Failure(e) => Body(None, Failure(e))
    case Success(isCharDevice) =>
      if !isCharDevice then Body(Some(FromStdin), stdin.contents)
      else if HasPrefix(data, "@") then
        var f := TrimPrefix(data, "@");
        Body(Some(FromFile(f)), readFile(f))
      else Body(Some(FromData), Success(data))
  }

  /** Piped input makes `--data` irrelevant. */
  lemma PipedStdinWins(data1: string, data2: string, stdin: Stdin, readFile: string -> Result<Bytes, string>)
    requires stdin.isCharDevice == Success(false)
    ensures GetBody(data1, stdin, readFile) == GetBody(data2, stdin, readFile)
    ensures GetBody(data1, stdin, readFile).source == Some(FromStdin)
  {
  }

  /** Exactly one leading `@` is removed: `@@x` reads the file `@x`. */
  lemma FileNameOneAt(name: string, stdin: Stdin, readFile: string -> Result<Bytes, string>)
    requires stdin.isCharDevice == Success(true)
    ensures GetBody("@" + name, stdin, readFile) == Body(Some(FromFile(name)), readFile(name))
  {
    assert HasPrefix("@" + name, "@");
  }

  /** Without piped input or `--data`, the body is empty. */
  lemma DefaultDataEmpty(stdin: Stdin, readFile: string -> Result<Bytes, string>)
    requires stdin.isCharDevice == Success(true)
    ensures GetBody(DefaultData, stdin, readFile) == Body(Some(FromData), Success(""))
  {
  }

  /** The command's arguments: the URL, `-X` (default GET), `-d` (default empty) and `-H` entries. */
  datatype Args = Args(url: string, httpMethod: string, data: string, headers: seq<string>)

  /**
    What the foreign parts give: `url.Parse` of the argument, the tunnel's
    calls, `SORACOM_VERBOSE`, standard input, file reads and the transport.
  */
  datatype CurlEnv = CurlEnv(parsedUrl: Result<Url, string>, tunnel: Tunnel.Env, soracomVerbose: string,
                             stdin: Stdin, readFile: string -> Result<Bytes, string>, transport: Transport)

  /** How the command ends: a fatal log message, or the response body printed. */
  datatype Exit = Fatal(message: string) | Printed(output: Bytes)

  /** Whether a tunnel was created, which request reached the transport, and how the command ended. */
  datatype Invocation = Invocation(tunnelAttempted: bool, sent: Option<Request>, exit: Exit)

  function ResponseFailed(url: string, err: string): string
  {
    "Failed to get response from " + url + ": " + err
  }

  function ReadFailed(url: string, err: string): string
  {
    "Failed to read response body from " + url + ": " + err
  }

  /** The body `getBody` chooses for the arguments and the environment. */
  function ChosenBody(args: Args, env: CurlEnv): Body
  {
    GetBody(args.data, env.stdin, env.readFile)
  }

  /** There is a session, the URL parses and the tunnel comes up, so a client exists. */
  predicate Opened(config: Config, env: CurlEnv)
  {
    config.session.Some? && env.parsedUrl.Success?
    && Tunnel.Create(config.privateKey, config.session.value, Tunnel.DefaultMtu, env.tunnel).result.Success?
  }

  /** The client's `Do` for the command's method and the chosen body. */
  function DoCall(config: Config, args: Args, env: CurlEnv): Outcome
    requires env.parsedUrl.Success? && ChosenBody(args, env).result.Success?
  {
    ArcHttp.DoOutcome(env.parsedUrl.value, args.headers, args.httpMethod, ChosenBody(args, env).result.value,
                      env.transport)
  }

  /** The whole command. This client's `createTunnel` uses wireguard-go's default MTU. */
  function Outcome(config: Config, args: Args, env: CurlEnv): (v: Invocation)
    ensures config.session.None? ==> v == Invocation(false, None, Fatal(SessionMissing))
    ensures v.tunnelAttempted <==> config.session.Some? && env.parsedUrl.Success?
    ensures config.session.Some? && env.parsedUrl.Failure? ==>
      v == Invocation(false, None, Fatal(ClientFailed + env.parsedUrl.error))
    ensures v.tunnelAttempted && Tunnel.Create(config.privateKey, config.session.value, Tunnel.DefaultMtu, env.tunnel).result.Failure? ==>
      v.sent.None? && v.exit == Fatal(ClientFailed + Tunnel.OpenFailed
        + Tunnel.Create(config.privateKey, config.session.value, Tunnel.DefaultMtu, env.tunnel).result.error)
    ensures v.sent.Some? ==>
      v.tunnelAttempted && ChosenBody(args, env).result.Success? &&
      v.sent.value == Request(args.httpMethod, ArcHttp.TargetUrl(env.parsedUrl.value),
                              HeaderMap(args.headers), ChosenBody(args, env).result.value)
    ensures Opened(config, env) && ChosenBody(args, env).result.Failure? ==>
      v == Invocation(true, None, Fatal(BodyFailed + ChosenBody(args, env).result.error))
    ensures Opened(config, env) && ChosenBody(args, env).result.Success? ==>
      var o := DoCall(config, args, env);
      v.sent == o.sent &&
      (o.result.Failure? ==> v.exit == Fatal(ResponseFailed(args.url, o.result.error))) &&
      (o.result.Success? && o.result.value.bodyErr.Some? ==>
         v.exit == Fatal(ReadFailed(args.url, o.result.value.bodyErr.value)))
    ensures v.exit.Printed? <==>
      Opened(config, env) && ChosenBody(args, env).result.Success?
      && IsSupportedMethod(args.httpMethod) && env.transport.newRequestErr.None?
      && env.transport.roundTrip.Success? && env.transport.roundTrip.value.statusCode < 400
      && env.transport.roundTrip.value.bodyErr.None?
    ensures v.exit.Printed? ==> v.exit.output == env.transport.roundTrip.value.body
  {
    match config.session
    case None => Invocation(false, None, Fatal(SessionMissing))
    case Some(session) =>
      match env.parsedUrl
      case Failure(e) => Invocation(false, None, Fatal(ClientFailed + e))
      case Success(u) =>
        var t := Tunnel.Create(config.privateKey, session, Tunnel.DefaultMtu, env.tunnel);
        if t.result.Failure? then Invocation(true, None, Fatal(ClientFailed + Tunnel.OpenFailed + t.result.error))
        else
          var b := ChosenBody(args, env);
          if b.result.Failure? then Invocation(true, None, Fatal(BodyFailed + b.result.error))
          else
            var o := ArcHttp.DoOutcome(u, args.headers, args.httpMethod, b.result.value, env.transport);
            if o.result.Failure? then Invocation(true, o.sent, Fatal(ResponseFailed(args.url, o.result.error)))
            else if o.result.value.bodyErr.Some? then
              Invocation(true, o.sent, Fatal(ReadFailed(args.url, o.result.value.bodyErr.value)))
            else Invocation(true, o.sent, Printed(o.result.value.body))
  }

  /** The method is passed on unchanged: one other than GET or POST is refused by the client, after the tunnel is up. */
  lemma MethodCheckedByClient(config: Config, args: Args, env: CurlEnv)
    requires config.session.Some? && env.parsedUrl.Success?
    requires Tunnel.Create(config.privateKey, config.session.value, Tunnel.DefaultMtu, env.tunnel).result.Success?
    requires ChosenBody(args, env).result.Success?
    requires args.httpMethod != "GET" && args.httpMethod != "POST"
    ensures Outcome(config, args, env) ==
      Invocation(true, None, Fatal(ResponseFailed(args.url, ArcHttp.UnsupportedMethod(args.httpMethod))))
  {
  }

  /** Without `-X` the request goes out as GET. */
  lemma DefaultMethodIsGet(config: Config, args: Args, env: CurlEnv)
    requires args.httpMethod == DefaultMethod
    ensures Outcome(config, args, env).sent.Some? ==> Outcome(config, args, env).sent.value.httpMethod == "GET"
  {
  }

  /** A GET still carries the chosen body: `--data` is not dropped for GET. */
  lemma GetKeepsData(config: Config, args: Args, env: CurlEnv)
    requires config.session.Some? && env.parsedUrl.Success?
    requires Tunnel.Create(config.privateKey, config.session.value, Tunnel.DefaultMtu, env.tunnel).result.Success?
    requires args.httpMethod == "GET" && env.transport.newRequestErr.None?
    requires env.stdin.isCharDevice == Success(true) && !HasPrefix(args.data, "@")
    ensures Outcome(config, args, env).sent.Some?
    ensures Outcome(config, args, env).sent.value.body == args.data
  {
  }

  /** A URL that does not parse ends the command before the tunnel, standard input or the network are consulted. */
  lemma ParseFailureFirst(config: Config, args: Args, env1: CurlEnv, env2: CurlEnv)
    requires config.session.Some?
    requires env1.parsedUrl.Failure? && env2.parsedUrl == env1.parsedUrl
    ensures Outcome(config, args, env1) == Outcome(config, args, env2)
  {
  }

  /** `newArcHTTPClient`: parse the URL first, then create the client, with verbose set by `SORACOM_VERBOSE`. */
  method NewClient(privateKey: string, session: Tunnel.Session, parsedUrl: Result<Url, string>,
                   tunnelEnv: Tunnel.Env, headers: seq<string>, soracomVerbose: string)
    returns (r: Result<ArcHttp.Client, string>, tunnelAttempted: bool)
    ensures parsedUrl.Failure? ==> r == Failure(parsedUrl.error) && !tunnelAttempted
    ensures parsedUrl.Success? ==>
      tunnelAttempted &&
      (r.Success? <==> Tunnel.Create(privateKey, session, Tunnel.DefaultMtu, tunnelEnv).result.Success?)
    ensures parsedUrl.Success? && r.Failure? ==>
      r.error == Tunnel.OpenFailed + Tunnel.Create(privateKey, session, Tunnel.DefaultMtu, tunnelEnv).result.error
    ensures r.Success? ==>
      fresh(r.value) && r.value.url == parsedUrl.value && r.value.headers == headers
      && r.value.Verbose() == VerboseEnabled(soracomVerbose)
  {
    if parsedUrl.Failure? {
      return Failure(parsedUrl.error), false;
    }
    r := ArcHttp.New(privateKey, session, Tunnel.DefaultMtu, tunnelEnv, parsedUrl.value, headers);
    tunnelAttempted := true;
    if r.Success? && VerboseEnabled(soracomVerbose) {
      r.value.SetVerbose(true);
    }
  }

  /** The command's `Run`, step by step. */
  method Run(config: Config, args: Args, env: CurlEnv) returns (v: Invocation)
    ensures v == Outcome(config, args, env)
  {
    if config.session.None? {
      return Invocation(false, None, Fatal(SessionMissing));
    }
    var client, attempted := NewClient(config.privateKey, config.session.value, env.parsedUrl, env.tunnel,
                                       args.headers, env.soracomVerbose);
    if client.Failure? {
      return Invocation(attempted, None, Fatal(ClientFailed + client.error));
    }
    var body := GetBody(args.data, env.stdin, env.readFile);
    if body.result.Failure? {
      return Invocation(true, None, Fatal(BodyFailed + body.result.error));
    }
    var o := client.value.Do(args.httpMethod, body.result.value, env.transport);
    if o.result.Failure? {
      return Invocation(true, o.sent, Fatal(ResponseFailed(args.url, o.result.error)));
    }
    if o.result.value.bodyErr.Some? {
      return Invocation(true, o.sent, Fatal(ReadFailed(args.url, o.result.value.bodyErr.value)));
    }
    return Invocation(true, o.sent, Printed(o.result.value.body));
  }
}
