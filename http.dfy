/**
  The request rules that both HTTP clients share: the method whitelist, the
  URL string, the header rule, and the classification of a response by its
  status code. The HTTP transport itself (`http.NewRequest`,
  `http.Client.Do`) is foreign; what it returns is an input (`Transport`).
*/
module Http {
  import opened Wrappers
  import opened GoStrings

  const MethodGet := "GET"
  const MethodPost := "POST"
  const StatusBadRequest := 400

  /** Only GET and POST are accepted by the clients. */
  function IsSupportedMethod(httpMethod: string): (b: bool)
    ensures b <==> httpMethod in {"GET", "POST"}
  {
    httpMethod == MethodGet || httpMethod == MethodPost
  }

  /**
    The parts of a parsed `url.URL` that the clients read: `Scheme`,
    `Hostname()`, `Port()`, `Path`, `RawQuery` and `Fragment`.
  */
  datatype Url = Url(scheme: string, hostname: string, port: string, path: string,
                     rawQuery: string, fragment: string)

  /** `fmt.Sprintf("%s://%s:%s/%s", scheme, hostname, port, path)`. */
  function FormatUrl(scheme: string, hostname: string, port: string, path: string): string
  {
    scheme + "://" + hostname + ":" + port + "/" + path
  }

  datatype Header = Header(name: string, value: string)

  /**
    A header string is used only when `strings.Split(h, ":")` gives exactly
    two parts: the name is the text before the colon, the value the text
    after it, untrimmed.
  */
  function ParseHeader(h: string): (r: Option<Header>)
    // used exactly when the string holds one colon
    ensures r.Some? <==> Count(h, ':') == 1
    // a used string is its name, a colon and its value, neither holding a colon
    ensures r.Some? ==> h == r.value.name + ":" + r.value.value && ':' !in r.value.name && ':' !in r.value.value
  {
    var parts := Split(h, ':');
    SplitCount(h, ':');
    JoinSplit(h, ':');
    SplitPartsFree(h, ':');
    assert |parts| == 2 ==> ':' !in parts[0] && ':' !in parts[1];
    assert |parts| == 2 ==> Join(parts, ':') == parts[0] + [':'] + parts[1];
    if |parts| == 2 then Some(Header(parts[0], parts[1])) else None
  }

  /** Every colon-free name and value come back out of `name:value`. */
  lemma ParseHeaderComplete(name: string, value: string)
    requires ':' !in name && ':' !in value
    ensures ParseHeader(name + ":" + value) == Some(Header(name, value))
  {
    SplitJoin([name, value], ':');
    assert Join([name, value], ':') == name + ":" + value;
  }

  /** The value keeps the space after the colon. */
  lemma ParseHeaderKeepsSpace()
    ensures ParseHeader("X-A: 1") == Some(Header("X-A", " 1"))
  {
    assert "X-A: 1" == "X-A" + ":" + " 1";
    ParseHeaderComplete("X-A", " 1");
  }

  /** Entries without a colon, or with two, are skipped. */
  lemma ParseHeaderSkips()
    ensures ParseHeader("NoColon") == None
    ensures ParseHeader("a:b:c") == None
  {
    assert Join(["a", "b", "c"], ':') == "a:b:c";
    SplitJoin(["a", "b", "c"], ':');
  }

  /** `req.Header.Set(name, value)` for a used header string; otherwise nothing. */
  function ApplyHeader(header: map<string, string>, h: string): (m: map<string, string>)
    ensures forall k :: k in m <==> k in header || Names(h, k)
    ensures forall k :: k in header && !Names(h, k) ==> m[k] == header[k]
    ensures ParseHeader(h).Some? ==>
      ParseHeader(h).value.name in m && m[ParseHeader(h).value.name] == ParseHeader(h).value.value
  {
    match ParseHeader(h)
    case Some(hd) => header[hd.name := hd.value]
    case None => header
  }

  /** The header map of a fresh request after applying `hs` in order. */
  function HeaderMap(hs: seq<string>): (m: map<string, string>)
    ensures forall k :: k in m ==> ':' !in k
    ensures |m| <= |hs|
  {
    if hs == [] then map[] else ApplyHeader(HeaderMap(hs[..|hs| - 1]), hs[|hs| - 1])
  }

  /** `h` is a used header string with the name `name`. */
  predicate Names(h: string, name: string)
  {
    ParseHeader(h).Some? && ParseHeader(h).value.name == name
  }

  /** A name is set exactly when some used header string carries it. */
  lemma {:induction false} HeaderMapNames(hs: seq<string>, name: string)
    ensures name in HeaderMap(hs) <==> exists i :: 0 <= i < |hs| && Names(hs[i], name)
  {
    if hs != [] {
      var init := hs[..|hs| - 1];
      HeaderMapNames(init, name);
      if exists i :: 0 <= i < |init| && Names(init[i], name) {
        var i :| 0 <= i < |init| && Names(init[i], name);
        assert Names(hs[i], name);
      }
      if exists i :: 0 <= i < |hs| && Names(hs[i], name) {
        var i :| 0 <= i < |hs| && Names(hs[i], name);
        if i < |init| {
          assert Names(init[i], name);
        }
      }
    }
  }

  /** The value set for a name is the value of the last header string with that name. */
  lemma {:induction false} HeaderMapLastWins(hs: seq<string>, i: nat, name: string)
    requires i < |hs| && Names(hs[i], name)
    requires forall j :: i < j < |hs| ==> !Names(hs[j], name)
    ensures name in HeaderMap(hs) && HeaderMap(hs)[name] == ParseHeader(hs[i]).value.value
  {
    var init := hs[..|hs| - 1];
    if i < |hs| - 1 {
      forall j | i < j < |init| ensures !Names(init[j], name) {
        assert init[j] == hs[j];
      }
      HeaderMapLastWins(init, i, name);
      assert !Names(hs[|hs| - 1], name);
    }
  }

  /** Applying one more header string. */
  lemma HeaderMapSnoc(hs: seq<string>, h: string)
    ensures HeaderMap(hs + [h]) == ApplyHeader(HeaderMap(hs), h)
  {
    assert (hs + [h])[..|hs|] == hs;
  }

  /** Two well-formed entries are applied and an entry without a colon is dropped. */
  lemma HeaderMapTwoAndMalformed(a: string, va: string, b: string, vb: string, junk: string)
    requires ':' !in a && ':' !in va && ':' !in b && ':' !in vb && ':' !in junk
    ensures HeaderMap([a + ":" + va, b + ":" + vb, junk]) == map[a := va][b := vb]
  {
    var ha, hb := a + ":" + va, b + ":" + vb;
    ParseHeaderComplete(a, va);
    ParseHeaderComplete(b, vb);
    HeaderMapSnoc([], ha);
    assert [] + [ha] == [ha];
    HeaderMapSnoc([ha], hb);
    assert [ha] + [hb] == [ha, hb];
    HeaderMapSnoc([ha, hb], junk);
    assert [ha, hb] + [junk] == [ha, hb, junk];
  }

  /** What the transport returns: status code, status line, and what reading the body gives. */
  datatype Response = Response(statusCode: int, status: string, body: Bytes, bodyErr: Option<string>)

  datatype Request = Request(httpMethod: string, url: string, header: map<string, string>, body: Bytes)

  /**
    The foreign part of one exchange: whether `http.NewRequest` fails, and
    what `http.Client.Do` returns for the request.
  */
  datatype Transport = Transport(newRequestErr: Option<string>, roundTrip: Result<Response, string>)

  /** `makeRequest`: build the request, then apply the header strings one by one. */
  method MakeRequest(httpMethod: string, url: string, body: Bytes, headers: seq<string>,
                     newRequestErr: Option<string>)
    returns (r: Result<Request, string>)
    ensures newRequestErr.Some? ==> r == Failure(newRequestErr.value)
    ensures newRequestErr.None? ==> r == Success(Request(httpMethod, url, HeaderMap(headers), body))
  {
    if newRequestErr.Some? {
      return Failure(newRequestErr.value);
    }
    var header: map<string, string> := map[];
    for i := 0 to |headers|
      invariant header == HeaderMap(headers[..i])
    {
      assert headers[..i + 1][..i] == headers[..i];
      var parts := Split(headers[i], ':');
      if |parts| == 2 {
        header := header[parts[0] := parts[1]];
      }
    }
    assert headers[..|headers|] == headers;
    return Success(Request(httpMethod, url, header, body));
  }

  /** The text of the error for a status of 400 or more. */
  function UpstreamError(res: Response, httpMethod: string, url: string): (e: string)
    ensures HasPrefix(e, res.status + ": " + httpMethod + " " + url + ": ")
    ensures |e| >= |res.body| && e[|e| - |res.body|..] == res.body
    ensures |e| == |res.status + ": " + httpMethod + " " + url + ": "| + |res.body|
  {
    res.status + ": " + httpMethod + " " + url + ": " + res.body
  }

  /** Go's `(res, err)` pair from `doRequest`, and whether the body was closed. */
  datatype Exchange = Exchange(response: Option<Response>, err: Option<string>, bodyClosed: bool)

  /** `doRequest`: send the request, then classify the response by its status code. */
  function DoRequest(req: Request, roundTrip: Result<Response, string>): (x: Exchange)
    ensures x.err.None? <==> roundTrip.Success? && roundTrip.value.statusCode < StatusBadRequest
    ensures roundTrip.Failure? ==> x.response.None? && x.err == Some(roundTrip.error)
    ensures roundTrip.Success? ==> x.response == Some(roundTrip.value)
    ensures x.bodyClosed <==> roundTrip.Success? && roundTrip.value.statusCode >= StatusBadRequest
    ensures roundTrip.Success? && x.err.Some? ==>
      x.err.value == UpstreamError(roundTrip.value, req.httpMethod, req.url)
  {
    match roundTrip
    case Failure(e) => Exchange(None, Some(e), false)
    case Success(res) =>
      if res.statusCode >= StatusBadRequest then
        Exchange(Some(res), Some(UpstreamError(res, req.httpMethod, req.url)), true)
      else
        Exchange(Some(res), None, false)
  }

  /** The result of `Do` (a response or an error) and the request handed to the transport, if any. */
  datatype Outcome = Outcome(result: Result<Response, string>, sent: Option<Request>)

  /** `makeRequest` followed by `doRequest`, as `Do` runs them once the method is accepted. */
  function Send(httpMethod: string, url: string, headers: seq<string>, body: Bytes, t: Transport): (o: Outcome)
    ensures t.newRequestErr.Some? ==> o == Outcome(Failure(t.newRequestErr.value), None)
    ensures t.newRequestErr.None? ==> o.sent == Some(Request(httpMethod, url, HeaderMap(headers), body))
    ensures o.result.Success? <==>
      t.newRequestErr.None? && t.roundTrip.Success? && t.roundTrip.value.statusCode < StatusBadRequest
    ensures o.result.Success? ==> o.result.value == t.roundTrip.value
    ensures t.newRequestErr.None? && t.roundTrip.Failure? ==> o.result == Failure(t.roundTrip.error)
    ensures t.newRequestErr.None? && t.roundTrip.Success? && t.roundTrip.value.statusCode >= StatusBadRequest ==>
      o.result == Failure(UpstreamError(t.roundTrip.value, httpMethod, url))
  {
    match t.newRequestErr
    case Some(e) => Outcome(Failure(e), None)
    case None =>
      var req := Request(httpMethod, url, HeaderMap(headers), body);
      var x := DoRequest(req, t.roundTrip);
      if x.err.Some? then Outcome(Failure(x.err.value), Some(req))
      else Outcome(Success(x.response.value), Some(req))
  }

  /** `makeRequest` then `doRequest`, run step by step as the clients' `Do` runs them. */
  method Perform(httpMethod: string, url: string, headers: seq<string>, body: Bytes, t: Transport)
    returns (o: Outcome)
    ensures o == Send(httpMethod, url, headers, body, t)
  {
    var req := MakeRequest(httpMethod, url, body, headers, t.newRequestErr);
    if req.Failure? {
      return Outcome(Failure(req.error), None);
    }
    var x := DoRequest(req.value, t.roundTrip);
    if x.err.Some? {
      return Outcome(Failure(x.err.value), Some(req.value));
    }
    return Outcome(Success(x.response.value), Some(req.value));
  }
}
