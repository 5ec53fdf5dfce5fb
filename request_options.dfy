// The HTTP request options shared by the shared requester package and the
// option packages of the Chonkie, TEI and text-embeddings-inference
// clients: each option is a step that changes the request configuration
// or fails, and a list of options is applied in order up to its first
// failure.

module RequestOptions {

  import opened Common
  import opened Headers

  /** A parsed URL; only its text form is observed. */
  datatype Url = Url(text: string)

  /** The *http.Client a request is sent with. */
  datatype HttpClient = DefaultClient | CustomClient(id: nat)

  /** url.Parse, supplied by the caller: the adapters never look inside a URL. */
  type Parser = string -> Result<Url>

  /**
   * One request option. `WithDefaultBaseURL` holds the outcome of parsing
   * its URL, because that parse happens when the option is built.
   */
  datatype RequestOption =
    | WithBaseURL(raw: string)
    | WithHeader(key: string, value: string)
    | WithHeaderAdd(key: string, value: string)
    | WithHeaderDel(key: string)
    | WithHTTPClient(client: Option<HttpClient>)
    | WithAPIKey(apiKey: string)
    | WithDefaultBaseURL(parsed: Result<Url>)
    | WithUseRawBaseURL

  /** The part of *http.Request the options and the executor touch. */
  datatype HttpRequest = HttpRequest(httpMethod: string, url: Url, header: Header, body: Option<Bytes>)

  /** What the response body is decoded into (`ResponseBodyInto`); `typeName` is its `%T`. */
  datatype Destination = NoDestination | BytesDestination | StringDestination | OtherDestination(typeName: string)

  /** The fields of a request configuration. */
  datatype ConfigState = ConfigState(
    baseURL: Option<Url>,
    defaultBaseURL: Option<Url>,
    request: HttpRequest,
    httpClient: HttpClient,
    apiKey: string,
    useRawBaseURL: bool,
    destination: Destination)

  /** The name and value the API key is sent under (RFC 6750 section 2.1). */
  const AuthorizationHeader := "authorization"

  function BearerValue(apiKey: string): string
  {
    "Bearer " + apiKey
  }

  /** WithDefaultBaseURL(raw): the URL is parsed now, and a parse failure is kept for later. */
  function DefaultBaseURLOption(parse: Parser, raw: string): (opt: RequestOption)
    ensures opt.WithDefaultBaseURL?
    ensures opt.parsed == parse(raw)
  {
    WithDefaultBaseURL(parse(raw))
  }

  /** The effect of one option on a configuration, or the error it returns. */
  function ApplyOption(s: ConfigState, opt: RequestOption, parse: Parser): Result<ConfigState>
  {
    match opt
      case WithBaseURL(raw) =>
        (match parse(raw)
          case Err(e) => Err(e)
          case Ok(u) => Ok(s.(baseURL := Some(u))))
      case WithHeader(k, v) => Ok(s.(request := s.request.(header := Set(s.request.header, k, v))))
      case WithHeaderAdd(k, v) => Ok(s.(request := s.request.(header := Add(s.request.header, k, v))))
      case WithHeaderDel(k) => Ok(s.(request := s.request.(header := Del(s.request.header, k))))
      case WithHTTPClient(c) => if c.Some? then Ok(s.(httpClient := c.value)) else Ok(s)
      case WithAPIKey(key) =>
        var keyed := s.(apiKey := key);
        Ok(keyed.(request := keyed.request.(header := Set(keyed.request.header, AuthorizationHeader, BearerValue(keyed.apiKey)))))
      case WithDefaultBaseURL(parsed) =>
        (match parsed
          case Err(e) => Err(e)
          case Ok(u) => Ok(s.(defaultBaseURL := Some(u))))
      case WithUseRawBaseURL => Ok(s.(useRawBaseURL := true))
  }

  /** The configuration after a list of options, and the first error if one failed. */
  datatype Applied = Applied(state: ConfigState, error: Option<Error>)

  /** RequestConfig.Apply: options in order; the first failure stops the rest, keeping what earlier options did. */
  function ApplyAll(s: ConfigState, opts: seq<RequestOption>, parse: Parser): Applied
    decreases |opts|
  {
    if opts == [] then Applied(s, None)
    else match ApplyOption(s, opts[0], parse)
      case Err(e) => Applied(s, Some(e))
      case Ok(next) => ApplyAll(next, opts[1..], parse)
  }

  /** Applying two lists is applying the first, then the second unless the first failed. */
  lemma {:induction false} ApplyAllAppend(s: ConfigState, a: seq<RequestOption>, b: seq<RequestOption>, parse: Parser)
    ensures ApplyAll(s, a + b, parse) ==
      (var r := ApplyAll(s, a, parse); if r.error.Some? then r else ApplyAll(r.state, b, parse))
    decreases |a|
  {
    if a == [] {
      assert a + b == b;
    } else {
      assert a + b != [];
      assert (a + b)[0] == a[0];
      assert (a + b)[1..] == a[1..] + b;
      match ApplyOption(s, a[0], parse)
        case Err(e) =>
        case Ok(next) => ApplyAllAppend(next, a[1..], b, parse);
    }
  }

  /** A one-option list applies that option. */
  lemma ApplyAllSingle(s: ConfigState, opt: RequestOption, parse: Parser)
    ensures ApplyAll(s, [opt], parse) ==
      (var r := ApplyOption(s, opt, parse); if r.Err? then Applied(s, Some(r.error)) else Applied(r.value, None))
  {
    assert [opt][1..] == [];
  }

  /** Two options: the second is applied to what the first produced. */
  lemma ApplyAllPair(s: ConfigState, o1: RequestOption, o2: RequestOption, parse: Parser)
    requires ApplyOption(s, o1, parse).Ok?
    ensures ApplyAll(s, [o1, o2], parse) == ApplyAll(ApplyOption(s, o1, parse).value, [o2], parse)
  {
    assert [o1, o2][1..] == [o2];
  }

  /** The first failing option's error is the result, and no option after it has any effect. */
  lemma StopsAtFirstError(s: ConfigState, before: seq<RequestOption>, bad: RequestOption, after: seq<RequestOption>, parse: Parser)
    requires ApplyAll(s, before, parse).error.None?
    requires ApplyOption(ApplyAll(s, before, parse).state, bad, parse).Err?
    ensures ApplyAll(s, before + [bad] + after, parse) ==
      Applied(ApplyAll(s, before, parse).state, Some(ApplyOption(ApplyAll(s, before, parse).state, bad, parse).error))
  {
    ApplyAllAppend(s, before, [bad] + after, parse);
    assert before + [bad] + after == before + ([bad] + after);
  }

  /** With no failing option, every option is applied and no error is returned. */
  lemma {:induction false} NoErrorWhenAllSucceed(s: ConfigState, opts: seq<RequestOption>, parse: Parser)
    requires forall i :: 0 <= i < |opts| ==> !opts[i].WithBaseURL? && !opts[i].WithDefaultBaseURL?
    ensures ApplyAll(s, opts, parse).error.None?
    decreases |opts|
  {
    if opts != [] {
      NoErrorWhenAllSucceed(ApplyOption(s, opts[0], parse).value, opts[1..], parse);
    }
  }

  /** WithHeader leaves exactly one value under its name and changes nothing else. */
  lemma HeaderSetReplaces(s: ConfigState, k: string, v: string, parse: Parser)
    ensures var r := ApplyOption(s, WithHeader(k, v), parse);
      r.Ok? && Values(r.value.request.header, k) == [v]
      && (forall k' :: k' != k ==> Values(r.value.request.header, k') == Values(s.request.header, k'))
      && r.value.(request := s.request) == s && r.value.request.(header := s.request.header) == s.request
  {
  }

  /** WithHeaderAdd appends, so successive adds keep their order after the values already present. */
  lemma HeaderAddsAccumulate(s: ConfigState, k: string, v1: string, v2: string, parse: Parser)
    ensures var r := ApplyAll(s, [WithHeaderAdd(k, v1), WithHeaderAdd(k, v2)], parse);
      r.error.None? && Values(r.state.request.header, k) == Values(s.request.header, k) + [v1, v2]
      && (forall k' :: k' != k ==> Values(r.state.request.header, k') == Values(s.request.header, k'))
  {
    var r1 := ApplyOption(s, WithHeaderAdd(k, v1), parse).value;
    ApplyAllPair(s, WithHeaderAdd(k, v1), WithHeaderAdd(k, v2), parse);
    ApplyAllSingle(r1, WithHeaderAdd(k, v2), parse);
    assert Values(s.request.header, k) + [v1] + [v2] == Values(s.request.header, k) + [v1, v2];
  }

  /** WithHeaderDel removes every value under its name and changes nothing else. */
  lemma HeaderDelRemoves(s: ConfigState, k: string, parse: Parser)
    ensures var r := ApplyOption(s, WithHeaderDel(k), parse);
      r.Ok? && Values(r.value.request.header, k) == []
      && (forall k' :: k' != k ==> Values(r.value.request.header, k') == Values(s.request.header, k'))
      && r.value.(request := s.request) == s
  {
  }

  /** WithAPIKey stores the key and sends it as a bearer token; of two keys the later one wins. */
  lemma ApiKeyLastWins(s: ConfigState, k1: string, k2: string, parse: Parser)
    ensures var r := ApplyAll(s, [WithAPIKey(k1), WithAPIKey(k2)], parse);
      r.error.None? && r.state.apiKey == k2
      && Values(r.state.request.header, AuthorizationHeader) == ["Bearer " + k2]
  {
    ApplyAllPair(s, WithAPIKey(k1), WithAPIKey(k2), parse);
    ApplyAllSingle(ApplyOption(s, WithAPIKey(k1), parse).value, WithAPIKey(k2), parse);
  }

  /** WithHTTPClient(nil) is ignored; a non-nil client replaces the current one. */
  lemma HttpClientOnlyWhenNonNil(s: ConfigState, c: Option<HttpClient>, parse: Parser)
    ensures var r := ApplyOption(s, WithHTTPClient(c), parse);
      r.Ok? && (c.None? ==> r.value == s) && (c.Some? ==> r.value == s.(httpClient := c.value))
  {
  }

  /** WithBaseURL parses when applied: a parse failure is the error and nothing is changed. */
  lemma BaseURLParsedOnApply(s: ConfigState, raw: string, parse: Parser)
    ensures var r := ApplyOption(s, WithBaseURL(raw), parse);
      (parse(raw).Err? ==> r == Err(parse(raw).error))
      && (parse(raw).Ok? ==> r == Ok(s.(baseURL := Some(parse(raw).value))))
  {
  }

  /** WithDefaultBaseURL never fails to build; its parse failure comes out only when it is applied. */
  lemma DefaultBaseURLErrorDeferred(s: ConfigState, raw: string, construct: Parser, parse: Parser)
    requires construct(raw).Err?
    ensures ApplyAll(s, [DefaultBaseURLOption(construct, raw)], parse) == Applied(s, Some(construct(raw).error))
  {
    ApplyAllSingle(s, DefaultBaseURLOption(construct, raw), parse);
  }

  /** WithUseRawBaseURL only raises the raw flag, and raising it twice is raising it once. */
  lemma UseRawBaseURLIdempotent(s: ConfigState, parse: Parser)
    ensures ApplyOption(s, WithUseRawBaseURL, parse) == Ok(s.(useRawBaseURL := true))
    ensures ApplyAll(s, [WithUseRawBaseURL, WithUseRawBaseURL], parse) == ApplyAll(s, [WithUseRawBaseURL], parse)
  {
    ApplyAllPair(s, WithUseRawBaseURL, WithUseRawBaseURL, parse);
    ApplyAllSingle(s.(useRawBaseURL := true), WithUseRawBaseURL, parse);
    ApplyAllSingle(s, WithUseRawBaseURL, parse);
  }

  /** The Chonkie production endpoint. */
  const ChonkieProductionURL := "https://api.chonkie.ai/v1/"

  /** The text-embeddings-inference production endpoint (a local server). */
  const TeiInferenceProductionURL := "http://localhost:8080"

  /** The Jina production endpoint. */
  const JinaProductionURL := "https://api.jina.ai/v1/"

  function ChonkieEnvironmentProduction(parse: Parser): (opt: RequestOption)
    ensures opt == DefaultBaseURLOption(parse, "https://api.chonkie.ai/v1/")
  {
    DefaultBaseURLOption(parse, ChonkieProductionURL)
  }

  function TeiInferenceEnvironmentProduction(parse: Parser): (opt: RequestOption)
    ensures opt == DefaultBaseURLOption(parse, "http://localhost:8080")
  {
    DefaultBaseURLOption(parse, TeiInferenceProductionURL)
  }

  function JinaEnvironmentProduction(parse: Parser): (opt: RequestOption)
    ensures opt == DefaultBaseURLOption(parse, "https://api.jina.ai/v1/")
  {
    DefaultBaseURLOption(parse, JinaProductionURL)
  }

  /** A production environment option sets the default base URL only, so an explicit base URL still wins. */
  lemma EnvironmentSetsOnlyDefault(s: ConfigState, raw: string, parse: Parser)
    requires parse(raw).Ok?
    ensures ApplyOption(s, DefaultBaseURLOption(parse, raw), parse) == Ok(s.(defaultBaseURL := Some(parse(raw).value)))
  {
  }

  /** The option packages of TEI and text-embeddings-inference have no raw-URL option. */
  predicate WithoutRawFlag(opts: seq<RequestOption>)
  {
    forall i :: 0 <= i < |opts| ==> !opts[i].WithUseRawBaseURL?
  }

  /** Options from those packages never raise the raw flag. */
  lemma {:induction false} WithoutRawFlagKeepsFlag(s: ConfigState, opts: seq<RequestOption>, parse: Parser)
    requires WithoutRawFlag(opts)
    ensures ApplyAll(s, opts, parse).state.useRawBaseURL == s.useRawBaseURL
    decreases |opts|
  {
    if opts != [] {
      match ApplyOption(s, opts[0], parse)
        case Err(_) =>
        case Ok(next) => WithoutRawFlagKeepsFlag(next, opts[1..], parse);
    }
  }

  /** The configuration NewRequestConfig starts from, before its options. */
  function InitialState(httpMethod: string, url: Url, body: Option<Bytes>, dst: Destination): (s: ConfigState)
    ensures Values(s.request.header, "Content-Type") == ["application/json"]
    ensures Values(s.request.header, "Accept") == ["application/json"]
    ensures s.baseURL.None? && s.defaultBaseURL.None? && s.httpClient == DefaultClient
    ensures s.apiKey == "" && !s.useRawBaseURL && s.destination == dst
  {
    var header := Set(Set(map[], "Content-Type", "application/json"), "Accept", "application/json");
    ConfigState(None, None, HttpRequest(httpMethod, url, header, body), DefaultClient, "", false, dst)
  }

  /**
   * NewRequestConfig: a marshalling failure of the body (`body` is the
   * outcome of json.Marshal, None when there is no body), then a failure
   * to build the request from `urlStr`, then the first failing option.
   */
  function NewConfig(httpMethod: string, urlStr: string, body: Option<Result<Bytes>>, dst: Destination,
                     opts: seq<RequestOption>, parse: Parser): (r: Result<ConfigState>)
    ensures body.Some? && body.value.Err? ==> r == Err(body.value.error)
    ensures (body.None? || body.value.Ok?) && parse(urlStr).Err? ==> r == Err(parse(urlStr).error)
    ensures r.Ok? ==> parse(urlStr).Ok? && ApplyAll(InitialState(httpMethod, parse(urlStr).value, if body.Some? then Some(body.value.value) else None, dst), opts, parse) == Applied(r.value, None)
  {
    if body.Some? && body.value.Err? then Err(body.value.error)
    else match parse(urlStr)
      case Err(e) => Err(e)
      case Ok(u) =>
        var applied := ApplyAll(InitialState(httpMethod, u, if body.Some? then Some(body.value.value) else None, dst), opts, parse);
        if applied.error.Some? then Err(applied.error.value) else Ok(applied.state)
  }

  /** The options of a new request override the JSON defaults when they name the same header. */
  lemma OptionsOverrideDefaults(httpMethod: string, urlStr: string, dst: Destination, v: string, parse: Parser)
    requires parse(urlStr).Ok?
    ensures var r := NewConfig(httpMethod, urlStr, None, dst, [WithHeader("Accept", v)], parse);
      r.Ok? && Values(r.value.request.header, "Accept") == [v]
      && Values(r.value.request.header, "Content-Type") == ["application/json"]
  {
    ApplyAllSingle(InitialState(httpMethod, parse(urlStr).value, None, dst), WithHeader("Accept", v), parse);
  }

  /** Resolves a request path against a base URL (url.URL.ResolveReference, RFC 3986 section 5.2), supplied by the caller. */
  type Resolver = (Url, Url) -> Url

  /**
   * A response as the executor reads it: `body` is what io.ReadAll
   * returned and `readError` the error it returned beside it.
   */
  datatype HttpResponse = HttpResponse(status: int, contentType: string, body: Bytes, readError: Option<Error>)

  /** http.Client.Do, supplied by the caller. */
  type Sender = (HttpClient, HttpRequest) -> Result<HttpResponse>

  /** json.Decoder.Decode into the destination, supplied by the caller: the error it returns, if any. */
  type JsonDecoder = (Bytes, Destination) -> Option<Error>

  /** What the executor stored through the destination pointer. */
  datatype Written = DecodedJson(from: Bytes) | RawBytes(data: Bytes) | RawText(text: string)

  /** The outcome of executing a configured request: the final configuration, the request sent, what was stored, the error. */
  datatype Execution = Execution(state: ConfigState, sent: Option<HttpRequest>, written: Option<Written>, error: Option<Error>)

  const BaseURLNotSet := "requestconfig: base url is not set"

  /** The base URL a request is sent against: the explicit one, else the default. */
  function EffectiveBaseURL(s: ConfigState): (u: Option<Url>)
    ensures s.baseURL.Some? ==> u == s.baseURL
    ensures s.baseURL.None? ==> u == s.defaultBaseURL
  {
    if s.baseURL.Some? then s.baseURL else s.defaultBaseURL
  }
}
