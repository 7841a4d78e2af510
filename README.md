# soratun: request shaping and lifecycle rules over a SORACOM Arc tunnel

soratun is a userspace SORACOM Arc client. It brings up a WireGuard tunnel
on a gVisor network stack and offers three clients over it:

- `ArcUnifiedEndpointHTTPClient` talks HTTP to the fixed Unified Endpoint
  `http://100.127.69.42:80`.
- `ArcHTTPClient` talks HTTP to a URL the caller supplies.
- `ArcClient` is a raw TCP/UDP connection.

Two commands use them. `soraproxy up` is a local proxy that forwards POST
requests to the Unified Endpoint. `soratun curl` sends one HTTP request.

This project models the rules those pieces follow and proves them:

- how a request is built: the method whitelist, the URL string, and the
  header rule (an entry is used only if it holds exactly one colon, and the
  last entry with a given name wins);
- how a response is classified by its status code;
- the tunnel: its four-line configuration text, its three creation steps
  in a fixed order, the fixed DNS resolver, and the idempotent `Close`;
- `NewArcClient`'s choice of dial path;
- the pass-through `Read`, `Write` and `Close` of the raw client;
- the proxy handler's writes;
- the curl command's choice of body and its stages.

Everything foreign is an input record. That covers the WireGuard device,
the gVisor stack, `http.NewRequest`, `http.Client.Do`, `url.Parse`, dials,
connection I/O, standard input, files and `SORACOM_VERBOSE`. Each record
holds what a call returns: a value or an error.

Go strings and byte slices are both Dafny strings, one character per byte.

Modules:

- `GoStrings`: `strings.Cut`, `Split`, `Join`, `HasPrefix`, `TrimPrefix`
  and `%d`, with their round-trip lemmas.
- `Http`: the request rules both HTTP clients share.
- `Tunnel`: `createTunnel` and the tunnel record.
- `UnifiedEndpoint`: the Unified Endpoint client.
- `ArcHttp`: the client for a caller-supplied URL.
- `ArcRaw`: the raw TCP/UDP client, from `arc_client.go`.
- `Command`: the configuration and rules the two commands share.
- `Proxy`: `soraproxy up`.
- `Curl`: `soratun curl`.

`unified_endpoint_http_client.go` and `arc_client.go` each define
`tunnel` and `createTunnel`, and `arc_http_client.go` repeats the
tunnel's methods `Close`, `DialContext` and `Resolver`. The model has one
tunnel, with the MTU as a parameter.

- The Unified Endpoint client passes the configured MTU.
- `arc_client.go`'s copy passes wireguard-go's `device.DefaultMTU`, which
  is 1420 (`Tunnel.DefaultMtu`).
- `arc_http_client.go` has no `createTunnel` of its own. Its messages use
  the same `%v` wording as `arc_client.go`, so `ArcHTTPClient` is taken to
  use that copy, and `Curl` passes `DefaultMtu`. `ArcHttp.New` itself takes
  the MTU as a parameter.

Behaviour of the code worth knowing:

- `ArcHTTPClient.Do` takes no path. Every request goes to the target URL's
  own path with one leading slash removed, so no path is ever joined onto
  a base URL (`ArcHttp.SameUrl`).
- The curl help text says `--data` is ignored for GET. The code still
  reads the body and sends it with a GET (`Curl.GetKeepsData`).
- No client ever closes its tunnel, and `ArcClient.Close` closes only the
  connection. The model holds the tunnel in each HTTP client but never
  closes it.
- A failed TCP address resolution is reported as
  `failed to resolve TCP address: <err>`, without the address.
- Using a tunnel after `Close` is not a predictable failure. Go
  dereferences the nil stack. The model's `DialVia` returns `None` there.
  The resolver holds the stack itself, not the record's field, so it keeps
  dialling that stack after `Close` (`Tunnel.ResolverSurvivesClose`).
- The proxy does not write every forwarding failure into the response.
  After a failed `client.Do`, the Go handler writes the message and then
  reads the body of a nil response.

## Model

| member | source | states |
|---|---|---|
| Http.IsSupportedMethod | unified_endpoint_http_client.go:67 | the accepted methods are exactly GET and POST |
| Http.ParseHeader | unified_endpoint_http_client.go:133-134 | a header string is used exactly when it holds one colon; a used one is name, colon, value, and neither part holds a colon |
| Http.ParseHeaderComplete | unified_endpoint_http_client.go:133-135 | every colon-free name and value come back out of `name:value` |
| Http.ParseHeaderKeepsSpace | unified_endpoint_http_client.go:135 | the value is not trimmed: `X-A: 1` gives ` 1` |
| Http.ParseHeaderSkips | unified_endpoint_http_client.go:134 | entries with no colon or with two colons are skipped |
| Http.ApplyHeader | unified_endpoint_http_client.go:133-136 | a used entry sets its name to its value; no other name is added or changed; an unused entry changes nothing |
| Http.HeaderMap | unified_endpoint_http_client.go:132-137 | no name set holds a colon, and there are at most as many names as entries |
| Http.HeaderMapNames | unified_endpoint_http_client.go:132-137 | a name is set exactly when some used header string carries it |
| Http.HeaderMapLastWins | unified_endpoint_http_client.go:132-137 | a name's value comes from the last header string with that name |
| Http.HeaderMapSnoc | unified_endpoint_http_client.go:132-137 | applying one more header string is one `Header.Set` or nothing |
| Http.HeaderMapTwoAndMalformed | unified_endpoint_http_client.go:132-137 | two good entries and one without a colon: only the two are set |
| Http.MakeRequest | unified_endpoint_http_client.go:119-140 | a `NewRequest` error is returned; otherwise the request has the method, URL, body, and the header map of the entries in order; `arc_http_client.go:101-117` is the same loop |
| Http.UpstreamError | unified_endpoint_http_client.go:170 | the error text starts `status: method url: ` and ends with the body text, with nothing in between: exactly `status: method url: body` |
| Http.DoRequest | unified_endpoint_http_client.go:142-174 | transport error: no response and that error; status >= 400: response, error `status: method url: body`, body closed; below 400: response and no error; `arc_http_client.go:119-150` is the same rule |
| Http.Send | unified_endpoint_http_client.go:71-86 | success exactly when the request is built and the status is below 400; each failure carries its own error; the request handed over |
| Http.Perform | unified_endpoint_http_client.go:71-86 | running `makeRequest` then `doRequest` gives `Send` |
| UnifiedEndpoint.RequestUrl | unified_endpoint_http_client.go:120-126 | the URL is `http://100.127.69.42:80/` followed by the path with at most one leading slash removed |
| UnifiedEndpoint.RequestUrlSlashes | unified_endpoint_http_client.go:72 | `/p` gives `.../p`, `//a` gives `...//a`, `a` gives `.../a` |
| UnifiedEndpoint.PortText | unified_endpoint_http_client.go:29-30 | port 80 prints as `80` |
| UnifiedEndpoint.DoOutcome | unified_endpoint_http_client.go:66-87 | a method other than GET or POST gives the unsupported-method error and no request; otherwise the request for `RequestUrl(path)` is sent |
| UnifiedEndpoint.RejectsOtherMethods | unified_endpoint_http_client.go:67-69 | any other method gives an error and no request, whatever the transport does |
| UnifiedEndpoint.DoSucceeds | unified_endpoint_http_client.go:66-87 | `Do` succeeds exactly when the method is supported, the request is built and the status is below 400 |
| UnifiedEndpoint.Client.Do | unified_endpoint_http_client.go:66-87 | the method check, `makeRequest` and `doRequest` give `DoOutcome` |
| UnifiedEndpoint.Client.constructor | unified_endpoint_http_client.go:54-62 | the client holds the tunnel and headers, with verbose off |
| UnifiedEndpoint.Client.SetVerbose | unified_endpoint_http_client.go:90-92 | `Verbose` returns the last value set |
| UnifiedEndpoint.New | unified_endpoint_http_client.go:47-63 | a tunnel error is prefixed `failed to create tunnel: `; otherwise a fresh client with an open tunnel, the headers and verbose off |
| Tunnel.ConfigText | unified_endpoint_http_client.go:193-201 | the text is the four lines private key, public key, endpoint, allowed IP, each followed by a newline |
| Tunnel.ConfigTextLines | unified_endpoint_http_client.go:193-201 | the configuration text is exactly four newline-terminated lines in the order private key, public key, endpoint, allowed IP |
| Tunnel.ConfigTextRoundTrip | unified_endpoint_http_client.go:193-201 | read back as `key=value` pairs, the text gives the four entries, endpoint `ip:port` and `allowed_ip=0.0.0.0/0` |
| Tunnel.Create | unified_endpoint_http_client.go:176-222 | steps run in the order stack, device, `IpcSet`, `Up`; the first failure stops the run with that step's message; success exactly when all succeed; `arc_client.go:110-154` is the same with the MTU the caller picks |
| Tunnel.CreateStackParams | unified_endpoint_http_client.go:177-181 | the stack gets the local address, DNS servers 100.127.0.53 and 100.127.1.53, and the MTU given |
| Tunnel.ResolverDial | unified_endpoint_http_client.go:215-219 | the resolver dials `100.127.0.53:53` whatever address is asked for |
| Tunnel.Open | unified_endpoint_http_client.go:176-222 | a `createTunnel` error is returned; otherwise a fresh tunnel record holding the created device, tun and stack |
| Tunnel.Opened | unified_endpoint_http_client.go:211-221 | a new record holds the device and tun; `DialContext` and the pure-Go resolver both dial the created stack, the resolver always at `100.127.0.53:53` |
| Tunnel.Tunnel.constructor | unified_endpoint_http_client.go:211-221 | a new record holds device, tun, stack, and a pure-Go resolver on that stack |
| Tunnel.Closed | unified_endpoint_http_client.go:105 | `Close` clears device, tun and stack and keeps the resolver |
| Tunnel.DevicesClosed | unified_endpoint_http_client.go:101-103 | the device is closed only when the record has one |
| Tunnel.CloseIdempotent | unified_endpoint_http_client.go:100-107 | a second `Close` changes nothing and closes no device again; `arc_http_client.go:82-89` is the same transition |
| Tunnel.Tunnel.Close | unified_endpoint_http_client.go:100-107 | returns no error, clears the record, records at most one device close |
| Tunnel.DialVia | unified_endpoint_http_client.go:110-112 | a dial goes to the record's stack, unchanged; there is none once the stack is cleared |
| Tunnel.DialAfterClose | unified_endpoint_http_client.go:105-112 | after `Close`, `DialContext` reaches no stack |
| Tunnel.ResolverSurvivesClose | unified_endpoint_http_client.go:215-219 | after `Close` the resolver still dials the stack it was built on, while `DialContext` dials none |
| Tunnel.Tunnel.DialContext | unified_endpoint_http_client.go:110-112 | `DialContext` is `DialVia` on the record |
| ArcHttp.TargetUrl | arc_http_client.go:103 | the URL is scheme, `://`, hostname, `:`, port, `/`, and the path with one leading slash removed |
| ArcHttp.TargetUrlIgnores | arc_http_client.go:103 | query and fragment do not reach the request URL |
| ArcHttp.TargetUrlNoPort | arc_http_client.go:103 | without a port the URL keeps `host:/path` |
| ArcHttp.DoOutcome | arc_http_client.go:49-69 | a method other than GET or POST gives `... It should be GET, POST` and no request; otherwise the request for `TargetUrl` is sent |
| ArcHttp.SameUrl | arc_http_client.go:49-58 | any two requests one client sends have the same URL |
| ArcHttp.RejectsOtherMethods | arc_http_client.go:50-52 | any other method gives an error and no request |
| ArcHttp.Client.Do | arc_http_client.go:49-69 | the method check, `makeRequest` and `doRequest` give `DoOutcome` |
| ArcHttp.Client.constructor | arc_http_client.go:37-45 | the client holds tunnel, URL and headers, with verbose off |
| ArcHttp.Client.SetVerbose | arc_http_client.go:72-79 | `Verbose` returns the last value set |
| ArcHttp.New | arc_http_client.go:31-46 | a tunnel error is prefixed `failed to create tunnel: `; otherwise a fresh client for the URL with verbose off |
| ArcRaw.Dialling | arc_client.go:37-69 | only `tcp` resolves and dials TCP; anything else dials `udp`; a deadline is set only on that path and only when the context has one; each failure has its message; the client keeps the original network name and the connection that was dialled |
| ArcRaw.Connect | arc_client.go:31-70 | the tunnel uses the default MTU; a tunnel error stops before any dial |
| ArcRaw.ConnectUsesDefaultMtu | arc_client.go:111-115 | the stack is created with MTU 1420 |
| ArcRaw.OnlyTcpResolves | arc_client.go:37-54 | the resolve path is taken exactly for `tcp`; `TCP` is dialled as `udp` |
| ArcRaw.TcpNoDeadline | arc_client.go:59-64 | a tcp connection never has a deadline set |
| ArcRaw.New | arc_client.go:31-70 | on success, a fresh client with the original network name and the dialled connection; otherwise the error |
| ArcRaw.Conn.Call | arc_client.go:74-97 | each `net.Conn` call is recorded in order and its reply is returned unchanged |
| ArcRaw.Client.Read | arc_client.go:73-79 | one read on the connection; its count and error are returned unchanged |
| ArcRaw.Client.Write | arc_client.go:82-93 | a body that fails to read gives `(0, err)` and no write; otherwise one write of the whole body, with the connection's count and error |
| ArcRaw.Client.Close | arc_client.go:96-98 | only the connection is closed; its error is returned |
| ArcRaw.Client.SetVerbose | arc_client.go:101-108 | `Verbose` returns the last value set |
| Proxy.Forward | cmd/soraproxy_up.go:54 | a POST is handed on as POST to `RequestUrl` of the request's path, with the request's body, whenever the request can be built |
| Proxy.HandlerReply | cmd/soraproxy_up.go:48-77 | non-POST writes the message and an empty body; POST forwards; a failed forward writes its message first; a good one writes the optional read error, then the body |
| Proxy.NonPostOutput | cmd/soraproxy_up.go:71-76 | for any method but POST the whole output is `unsupported HTTP method: <m>`, and nothing is forwarded |
| Proxy.PostRelaysBody | cmd/soraproxy_up.go:53-76 | a POST reaches the Unified Endpoint as POST with the request's path and body; the upstream body is the whole output |
| Proxy.ForwardFailureFirst | cmd/soraproxy_up.go:55-58 | a failed forward writes `failed to get response from Unified Endpoint: <err>` first |
| Proxy.Handle | cmd/soraproxy_up.go:48-77 | any path: the writes are appended as `HandlerReply` says, the status is never set, and `aborted` marks a failed forward |
| Proxy.Serve | cmd/soraproxy_up.go:48-77 | `aborted` exactly when a POST's forward fails; otherwise, on a fresh writer, the output is exactly the handler's writes under status 200 |
| Proxy.ResponseWriter.WriteString | cmd/soraproxy_up.go:76 | a write appends its string and leaves the status alone |
| Proxy.ConcatAppend | cmd/soraproxy_up.go:76 | the output of successive writes is their concatenation |
| Proxy.BindAddressRoundTrip | cmd/soraproxy_up.go:79 | the listen address is `address:port`; both can be read back |
| Proxy.DefaultBindAddress | cmd/soraproxy_up.go:98-99 | the defaults give `127.0.0.1:8888` |
| Proxy.NewClient | cmd/soraproxy_up.go:104-115 | verbose is on exactly when `SORACOM_VERBOSE` is non-empty; errors pass through |
| Proxy.UpOutcome | cmd/soraproxy_up.go:31-40 | no session is fatal with the session message; a tunnel error is fatal with `Failed to create a new client: `; otherwise serving on `address:port` |
| Proxy.NoSessionIgnoresTunnel | cmd/soraproxy_up.go:31-33 | without a session the outcome does not depend on the tunnel |
| Proxy.StackFailureMessage | cmd/soraproxy_up.go:37-40 | a stack failure is reported with each layer's prefix in turn |
| Proxy.Up | cmd/soraproxy_up.go:30-83 | the command's steps give `UpOutcome`; a client exists exactly when serving, with the headers and the verbose rule |
| Curl.GetBody | cmd/curl.go:89-113 | a `Stat` error is returned; piped input is the body; else `@name` reads file `name`; else the body is the literal `--data` |
| Curl.PipedStdinWins | cmd/curl.go:95-101 | with piped input, `--data` makes no difference |
| Curl.FileNameOneAt | cmd/curl.go:103-110 | exactly one leading `@` is removed from the file name |
| Curl.DefaultDataEmpty | cmd/curl.go:103-112 | with no input and the default `--data`, the body is empty |
| Curl.Outcome | cmd/curl.go:37-62 | session, then URL parse, then tunnel, then body, then request, then reading the response; each failure is fatal with its own message; the request keeps the given method; the body is printed exactly when every step succeeds |
| Curl.MethodCheckedByClient | cmd/curl.go:52-55 | a method other than GET or POST reaches the client unchanged and is refused there |
| Curl.DefaultMethodIsGet | cmd/curl.go:65 | without `-X` the request goes out as GET |
| Curl.GetKeepsData | cmd/curl.go:47-52 | a GET still carries the `--data` body |
| Curl.ParseFailureFirst | cmd/curl.go:72-75 | a URL that does not parse ends the command whatever the tunnel, input or network would do |
| Curl.NewClient | cmd/curl.go:71-87 | the URL is parsed before any tunnel is created; verbose is on exactly when `SORACOM_VERBOSE` is non-empty |
| Curl.Run | cmd/curl.go:37-62 | the command's steps give `Outcome` |

## Left out

- WireGuard and gVisor internals are foreign calls. These are `netstack.CreateNetTUN`, `device.NewDevice`, `IpcSet`, `Up`, the stack's dials, and `net.Conn` read, write, deadline and close. What each returns is an input, so packet flow and handshakes are not modelled.
- `http.NewRequest` and `http.Client.Do` are foreign. Their error or response is an input (`Http.Transport`).
- `url.Parse` is foreign. The parsed URL (`Http.Url`) or the parse error is an input.
- Key hex encoding (`AsHexString`) lives in the configuration package. The keys arrive already as hex strings.
- Http.HeaderMap: names are kept as written. `Header.Set` would canonicalise them (`x-a` and `X-A` name one header), and that is not modelled.
- Http.DoRequest: the error text uses the URL string the request was built from, not Go's re-serialisation of `req.URL`.
- Request and response dumps are output side effects and are not modelled. The same goes for logger output, `fmt.Printf` of byte counts and the "failed to close response" message.
- Bodies are whole strings, not streams. Reading a body gives the bytes read and the read error, if any (`Http.Response`). `doRequest` ignores that error when it builds the status error text.
- ArcRaw.Client.Read: returns the connection's count and error, but not the bytes placed in the caller's buffer.
- `net.ResolveTCPAddr` goes through the host resolver. Its printed result or error is an input.
- The context deadline appears only as its printed form.
- Proxy.Handle: after a failed forward the Go handler goes on to read the body of a nil response. The model stops after the message it writes first.
- Proxy.Serve: after a failed forward the Go handler panics on the nil response, `net/http` recovers and closes the connection, and no reply is sent. The model promises nothing about that request beyond `aborted`.
- Tunnel.DialVia: after `Close`, Go dereferences the nil stack and does not return an error. The model returns `None`.
- `ListenAndServe`, the goroutine, and the `select` over the listener error and OS signals are concurrency and signals. `Proxy.Up` stops where serving would start.
- The `Resolver()` accessor only returns the record's resolver, which is the `resolver` field of `Tunnel.Record`.
- Cobra flag parsing is not modelled. The flags arrive as values (`Curl.Args`, and the address and port of `Proxy.Up`), with the defaults as constants.
- The log level and the device logger are not modelled.
- `log.Fatal` is an `Exit`/`Launch` value. The process exit is not modelled.
- `cmd/nc.go`, `cmd/up.go`, `cmd/dump_wireguard_config.go`, `cmd/soraproxy_root.go`, `cmd/soraproxy/main.go` and `aws-lambda-extension/example/index.js` are not part of this model. They are command wiring, rendering and an external example.
