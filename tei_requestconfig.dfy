// The TEI client's request configuration: the same fields and options as
// the Chonkie one without the raw-URL flag, and an executor that always
// resolves the request path against the base URL and names the request
// URL in its status errors. The text-embeddings-inference client's own
// request configuration is taken to be this one.

module TeiRequestConfig {

  import opened Common
  import opened Headers
  import opened RequestOptions
  import Text

  /** What Execute does, from the configuration it starts with. */
  function ExecuteSpec(s: ConfigState, resolve: Resolver, send: Sender, decodeJson: JsonDecoder): Execution
  {
    var base := EffectiveBaseURL(s);
    if base.None? then Execution(s, None, None, Some(Failure(BaseURLNotSet)))
    else
      var t := s.(baseURL := base, request := s.request.(url := resolve(base.value, s.request.url)));
      match send(t.httpClient, t.request)
        case Err(e) => Execution(t, Some(t.request), None, Some(e))
        case Ok(resp) =>
          if resp.status >= 400 then
            Execution(t, Some(t.request), None, Some(StatusError(resp, t.request.url)))
          else if t.destination.NoDestination? then Execution(t, Some(t.request), None, None)
          else if Text.Contains(resp.contentType, "application/json") then
            Execution(t, Some(t.request), Some(DecodedJson(resp.body)), decodeJson(resp.body, t.destination))
          else match t.destination
            case BytesDestination =>
              if resp.readError.Some? then Execution(t, Some(t.request), None, resp.readError)
              else Execution(t, Some(t.request), Some(RawBytes(resp.body)), None)
            case StringDestination =>
              if resp.readError.Some? then Execution(t, Some(t.request), None, resp.readError)
              else Execution(t, Some(t.request), Some(RawText(BytesToString(resp.body))), None)
            case OtherDestination(typeName) =>
              Execution(t, Some(t.request), None, Some(Failure("unsupported response body type: " + typeName)))
  }

  /** The TEI status error: status, body and the URL the request went to. */
  function StatusError(resp: HttpResponse, url: Url): Error
  {
    Failure("TEI API error: status=" + Text.IntToString(resp.status) + " body=" + BytesToString(resp.body) + " request=" + url.text)
  }

  /** Without an explicit base URL the default one is used, and kept as the base URL. */
  lemma DefaultBaseURLFallback(s: ConfigState, resolve: Resolver, send: Sender, decodeJson: JsonDecoder)
    requires s.baseURL.None? && s.defaultBaseURL.Some?
    ensures ExecuteSpec(s, resolve, send, decodeJson).state.baseURL == s.defaultBaseURL
    ensures ExecuteSpec(s, resolve, send, decodeJson).sent.Some?
  {
  }

  /** With neither base URL, Execute fails before sending anything and changes nothing. */
  lemma NoBaseURLSendsNothing(s: ConfigState, resolve: Resolver, send: Sender, decodeJson: JsonDecoder)
    requires s.baseURL.None? && s.defaultBaseURL.None?
    ensures ExecuteSpec(s, resolve, send, decodeJson) == Execution(s, None, None, Some(Failure("requestconfig: base url is not set")))
  {
  }

  /** There is no raw mode: the request path is always resolved against the base URL. */
  lemma FinalURL(s: ConfigState, resolve: Resolver, send: Sender, decodeJson: JsonDecoder)
    requires EffectiveBaseURL(s).Some?
    ensures var x := ExecuteSpec(s, resolve, send, decodeJson);
      x.sent.Some? && x.sent.value.url == resolve(EffectiveBaseURL(s).value, s.request.url)
      && x.sent.value.header == s.request.header
  {
  }

  /** A status of 400 or more is an error that carries the status and the body, and nothing is stored. */
  lemma ErrorStatusReported(s: ConfigState, resolve: Resolver, send: Sender, decodeJson: JsonDecoder)
    requires EffectiveBaseURL(s).Some?
    requires var x := ExecuteSpec(s, resolve, send, decodeJson);
      send(x.state.httpClient, x.state.request).Ok? && send(x.state.httpClient, x.state.request).value.status >= 400
    ensures var x := ExecuteSpec(s, resolve, send, decodeJson);
      var resp := send(x.state.httpClient, x.state.request).value;
      x.written.None? && x.error == Some(Failure("TEI API error: status=" + Text.IntToString(resp.status) + " body="
        + BytesToString(resp.body) + " request=" + x.state.request.url.text))
  {
  }

  /**
   * A successful response outside JSON is stored only into a byte slice or
   * a string; the body is read only for those two, so any other
   * destination is an error whatever the read did.
   */
  lemma NonJsonDestinations(s: ConfigState, resolve: Resolver, send: Sender, decodeJson: JsonDecoder)
    requires EffectiveBaseURL(s).Some?
    requires var x := ExecuteSpec(s, resolve, send, decodeJson);
      var r := send(x.state.httpClient, x.state.request);
      r.Ok? && r.value.status < 400 && !Text.Contains(r.value.contentType, "application/json")
    ensures var x := ExecuteSpec(s, resolve, send, decodeJson);
      var resp := send(x.state.httpClient, x.state.request).value;
      (s.destination.NoDestination? ==> x.error.None? && x.written.None?)
      && ((s.destination.BytesDestination? || s.destination.StringDestination?) && resp.readError.Some? ==>
            x.error == resp.readError && x.written.None?)
      && (resp.readError.None? && s.destination.BytesDestination? ==> x.error.None? && x.written == Some(RawBytes(resp.body)))
      && (resp.readError.None? && s.destination.StringDestination? ==> x.error.None? && x.written == Some(RawText(BytesToString(resp.body))))
      && (s.destination.OtherDestination? ==> x.written.None? && x.error == Some(Failure("unsupported response body type: " + s.destination.typeName)))
  {
  }

  /** A JSON response is handed to the JSON decoder, whatever the destination, unless there is none. */
  lemma JsonResponseDecoded(s: ConfigState, resolve: Resolver, send: Sender, decodeJson: JsonDecoder)
    requires EffectiveBaseURL(s).Some? && !s.destination.NoDestination?
    requires var x := ExecuteSpec(s, resolve, send, decodeJson);
      var r := send(x.state.httpClient, x.state.request);
      r.Ok? && r.value.status < 400 && Text.Contains(r.value.contentType, "application/json")
    ensures var x := ExecuteSpec(s, resolve, send, decodeJson);
      var resp := send(x.state.httpClient, x.state.request).value;
      x.written == Some(DecodedJson(resp.body)) && x.error == decodeJson(resp.body, s.destination)
  {
  }

  class RequestConfig {
    var baseURL: Option<Url>
    var defaultBaseURL: Option<Url>
    var request: HttpRequest
    var httpClient: HttpClient
    var apiKey: string
    var responseBodyInto: Destination

    function State(): ConfigState
      reads this
    {
      ConfigState(baseURL, defaultBaseURL, request, httpClient, apiKey, false, responseBodyInto)
    }

    constructor (s: ConfigState)
      requires !s.useRawBaseURL
      ensures State() == s
    {
      baseURL := s.baseURL;
      defaultBaseURL := s.defaultBaseURL;
      request := s.request;
      httpClient := s.httpClient;
      apiKey := s.apiKey;
      responseBodyInto := s.destination;
    }

    /** RequestOption.Apply: one option updates the fields it names, or fails and changes nothing. */
    method ApplyOne(opt: RequestOption, parse: Parser) returns (err: Option<Error>)
      requires !opt.WithUseRawBaseURL?
      modifies this
      ensures var r := ApplyOption(old(State()), opt, parse);
        (r.Ok? ==> err.None? && State() == r.value)
        && (r.Err? ==> err == Some(r.error) && State() == old(State()))
      decreases if opt.WithAPIKey? then 1 else 0
    {
      err := None;
      match opt {
        case WithBaseURL(raw) =>
          match parse(raw) {
            case Err(e) => err := Some(e);
            case Ok(u) => baseURL := Some(u);
          }
        case WithHeader(k, v) => request := request.(header := Set(request.header, k, v));
        case WithHeaderAdd(k, v) => request := request.(header := Add(request.header, k, v));
        case WithHeaderDel(k) => request := request.(header := Del(request.header, k));
        case WithHTTPClient(c) =>
          if c.Some? {
            httpClient := c.value;
          }
        case WithAPIKey(key) =>
          apiKey := key;
          err := ApplyOne(WithHeader(AuthorizationHeader, BearerValue(apiKey)), parse);
        case WithDefaultBaseURL(parsed) =>
          match parsed {
            case Err(e) => err := Some(e);
            case Ok(u) => defaultBaseURL := Some(u);
          }
      }
    }

    /** RequestConfig.Apply: each option in order; the first error is returned and the rest are skipped. */
    method Apply(opts: seq<RequestOption>, parse: Parser) returns (err: Option<Error>)
      requires WithoutRawFlag(opts)
      modifies this
      ensures Applied(State(), err) == ApplyAll(old(State()), opts, parse)
    {
      var i := 0;
      while i < |opts|
        invariant 0 <= i <= |opts|
        invariant ApplyAll(State(), opts[i..], parse) == ApplyAll(old(State()), opts, parse)
      {
        ghost var before := State();
        assert opts[i..][0] == opts[i] && opts[i..][1..] == opts[i + 1..];
        err := ApplyOne(opts[i], parse);
        if err.Some? {
          assert ApplyAll(before, opts[i..], parse) == Applied(State(), err);
          return;
        }
        i := i + 1;
      }
      err := None;
    }

    /** RequestConfig.Execute. */
    method Execute(resolve: Resolver, send: Sender, decodeJson: JsonDecoder)
      returns (err: Option<Error>, sent: Option<HttpRequest>, written: Option<Written>)
      modifies this
      ensures Execution(State(), sent, written, err) == ExecuteSpec(old(State()), resolve, send, decodeJson)
    {
      sent, written := None, None;
      if baseURL.None? {
        if defaultBaseURL.Some? {
          baseURL := defaultBaseURL;
        } else {
          err := Some(Failure(BaseURLNotSet));
          return;
        }
      }
      var u := resolve(baseURL.value, request.url);
      request := request.(url := u);
      sent := Some(request);
      var r := send(httpClient, request);
      if r.Err? {
        err := Some(r.error);
        return;
      }
      var resp := r.value;
      if resp.status >= 400 {
        err := Some(Failure("TEI API error: status=" + Text.IntToString(resp.status) + " body="
          + BytesToString(resp.body) + " request=" + request.url.text));
        return;
      }
      if responseBodyInto.NoDestination? {
        err := None;
        return;
      }
      if Text.Contains(resp.contentType, "application/json") {
        written := Some(DecodedJson(resp.body));
        err := decodeJson(resp.body, responseBodyInto);
        return;
      }
      match responseBodyInto {
        case BytesDestination =>
          if resp.readError.Some? {
            err := resp.readError;
            return;
          }
          written := Some(RawBytes(resp.body));
          err := None;
        case StringDestination =>
          if resp.readError.Some? {
            err := resp.readError;
            return;
          }
          written := Some(RawText(BytesToString(resp.body)));
          err := None;
        case OtherDestination(typeName) =>
          err := Some(Failure("unsupported response body type: " + typeName));
      }
    }
  }

  /** NewRequestConfig: a configuration with the JSON headers and its options applied, or the first error. */
  method NewRequestConfig(httpMethod: string, urlStr: string, body: Option<Result<Bytes>>, dst: Destination,
                          opts: seq<RequestOption>, parse: Parser)
    returns (cfg: RequestConfig?, err: Option<Error>)
    requires WithoutRawFlag(opts)
    ensures var r := NewConfig(httpMethod, urlStr, body, dst, opts, parse);
      (r.Ok? ==> err.None? && cfg != null && fresh(cfg) && cfg.State() == r.value)
      && (r.Err? ==> err == Some(r.error) && cfg == null)
  {
    if body.Some? && body.value.Err? {
      return null, Some(body.value.error);
    }
    var u := parse(urlStr);
    if u.Err? {
      return null, Some(u.error);
    }
    var content := if body.Some? then Some(body.value.value) else None;
    cfg := new RequestConfig(InitialState(httpMethod, u.value, content, dst));
    err := cfg.Apply(opts, parse);
    if err.Some? {
      cfg := null;
    }
  }

  /** ExecuteNewRequest: build the configuration, then execute it; a construction error sends nothing. */
  method ExecuteNewRequest(httpMethod: string, urlStr: string, body: Option<Result<Bytes>>, dst: Destination,
                           opts: seq<RequestOption>, parse: Parser, resolve: Resolver, send: Sender, decodeJson: JsonDecoder)
    returns (err: Option<Error>, sent: Option<HttpRequest>, written: Option<Written>)
    requires WithoutRawFlag(opts)
    ensures var r := NewConfig(httpMethod, urlStr, body, dst, opts, parse);
      (r.Err? ==> err == Some(r.error) && sent.None? && written.None?)
      && (r.Ok? ==> (var x := ExecuteSpec(r.value, resolve, send, decodeJson); err == x.error && sent == x.sent && written == x.written))
  {
    var cfg;
    cfg, err := NewRequestConfig(httpMethod, urlStr, body, dst, opts, parse);
    if err.Some? {
      return err, None, None;
    }
    err, sent, written := cfg.Execute(resolve, send, decodeJson);
  }
}
