// The request options an HTTP encoder hands to its client: the header
// options of applyHeaders first, then an API-key, a base-URL and a
// raw-URL option, each present only when the encoder's own condition for
// it holds. Applied to any request configuration, such a list adds the
// caller's header values, sets the key and the base URL it names, and
// fails only when that base URL does not parse.

module EncoderOptions {

  import opened Common
  import opened Headers
  import opened RequestOptions
  import opened HeaderOptions

  /** Which of the options after the headers an encoder emits, with their values. */
  datatype Trailer = Trailer(apiKey: Option<string>, baseURL: Option<string>, useRawBaseURL: bool)

  /** Headers only. */
  const NoTrailer := Trailer(None, None, false)

  /** The key option, then the base-URL option, then the raw flag, each only when present. */
  function TrailerOptions(t: Trailer): (opts: seq<RequestOption>)
    ensures |opts| == (if t.apiKey.Some? then 1 else 0) + (if t.baseURL.Some? then 1 else 0) + (if t.useRawBaseURL then 1 else 0)
    ensures forall i :: 0 <= i < |opts| ==> !opts[i].WithHeaderAdd?
    ensures WithUseRawBaseURL in opts <==> t.useRawBaseURL
  {
    (if t.apiKey.Some? then [WithAPIKey(t.apiKey.value)] else [])
    + (if t.baseURL.Some? then [WithBaseURL(t.baseURL.value)] else [])
    + (if t.useRawBaseURL then [WithUseRawBaseURL] else [])
  }

  /** `reqOpts` is the expansion of `headers`, in some order of the names, followed by the trailer. */
  ghost predicate EncodedAs(reqOpts: seq<RequestOption>, headers: Header, t: Trailer)
  {
    var n := |reqOpts| - |TrailerOptions(t)|;
    n >= 0
    && ExpandsHeaders(reqOpts[..n], headers)
    && reqOpts[n..] == TrailerOptions(t)
  }

  /** applyHeaders followed by the encoder's conditional appends. */
  method EncodeOptions(headers: Header, t: Trailer) returns (reqOpts: seq<RequestOption>)
    ensures EncodedAs(reqOpts, headers, t)
  {
    var hs := ApplyHeaders(headers);
    reqOpts := hs;
    if t.apiKey.Some? {
      reqOpts := reqOpts + [WithAPIKey(t.apiKey.value)];
    }
    if t.baseURL.Some? {
      reqOpts := reqOpts + [WithBaseURL(t.baseURL.value)];
    }
    if t.useRawBaseURL {
      reqOpts := reqOpts + [WithUseRawBaseURL];
    }
    assert reqOpts == hs + TrailerOptions(t);
    assert reqOpts[..|hs|] == hs;
  }

  /** The header table after a run of add-header options, applied in order. */
  function AddAll(h: Header, opts: seq<RequestOption>): Header
    requires AllHeaderAdds(opts)
  {
    if opts == [] then h
    else
      var last := opts[|opts| - 1];
      Add(AddAll(h, opts[..|opts| - 1]), last.key, last.value)
  }

  /** After a run of add-header options every name has its old values followed by the added ones. */
  lemma {:induction false} AddAllValues(h: Header, opts: seq<RequestOption>, k: string)
    requires AllHeaderAdds(opts)
    ensures Values(AddAll(h, opts), k) == Values(h, k) + ValuesFor(opts, k)
    decreases |opts|
  {
    if opts != [] {
      AddAllValues(h, opts[..|opts| - 1], k);
    }
  }

  /** Add-header options never fail; they only extend the request's header table. */
  lemma {:induction false} ApplyHeaderAdds(s: ConfigState, opts: seq<RequestOption>, parse: Parser)
    requires AllHeaderAdds(opts)
    ensures ApplyAll(s, opts, parse) == Applied(s.(request := s.request.(header := AddAll(s.request.header, opts))), None)
    decreases |opts|
  {
    if opts == [] {
    } else {
      var init := opts[..|opts| - 1];
      var last := opts[|opts| - 1];
      assert init + [last] == opts;
      ApplyHeaderAdds(s, init, parse);
      var s0 := ApplyAll(s, init, parse).state;
      var h := Add(s0.request.header, last.key, last.value);
      assert h == AddAll(s.request.header, opts);
      ApplyAllAppend(s, init, [last], parse);
      ApplyAllSingle(s0, last, parse);
      assert ApplyOption(s0, last, parse) == Ok(s0.(request := s0.request.(header := h)));
    }
  }

  /** The state after the trailer, when nothing in it failed. */
  function AfterTrailer(s: ConfigState, t: Trailer, parse: Parser): (r: ConfigState)
    requires t.baseURL.Some? ==> parse(t.baseURL.value).Ok?
    ensures r.apiKey == (if t.apiKey.Some? then t.apiKey.value else s.apiKey)
    ensures r.baseURL == (if t.baseURL.Some? then Some(parse(t.baseURL.value).value) else s.baseURL)
    ensures r.useRawBaseURL == (s.useRawBaseURL || t.useRawBaseURL)
    ensures r.defaultBaseURL == s.defaultBaseURL && r.httpClient == s.httpClient
    ensures t.apiKey.Some? ==> Values(r.request.header, AuthorizationHeader) == [BearerValue(t.apiKey.value)]
    ensures forall k :: (t.apiKey.None? || k != AuthorizationHeader) ==>
      Values(r.request.header, k) == Values(s.request.header, k)
  {
    var keyed := if t.apiKey.Some? then ApplyOption(s, WithAPIKey(t.apiKey.value), parse).value else s;
    var based := if t.baseURL.Some? then keyed.(baseURL := Some(parse(t.baseURL.value).value)) else keyed;
    if t.useRawBaseURL then based.(useRawBaseURL := true) else based
  }

  /** An option list of zero or one option that cannot fail. */
  lemma ApplyOptional(s: ConfigState, opts: seq<RequestOption>, parse: Parser)
    requires |opts| <= 1
    requires opts != [] ==> ApplyOption(s, opts[0], parse).Ok?
    ensures ApplyAll(s, opts, parse) == Applied(if opts == [] then s else ApplyOption(s, opts[0], parse).value, None)
  {
    if opts != [] {
      assert opts == [opts[0]];
      ApplyAllSingle(s, opts[0], parse);
    }
  }

  /** The trailer fails exactly when its base URL does not parse; otherwise it yields AfterTrailer. */
  lemma ApplyTrailer(s: ConfigState, t: Trailer, parse: Parser)
    ensures t.baseURL.Some? && parse(t.baseURL.value).Err? ==>
      ApplyAll(s, TrailerOptions(t), parse).error == Some(parse(t.baseURL.value).error)
    ensures !(t.baseURL.Some? && parse(t.baseURL.value).Err?) ==>
      ApplyAll(s, TrailerOptions(t), parse) == Applied(AfterTrailer(s, t, parse), None)
  {
    var k := if t.apiKey.Some? then [WithAPIKey(t.apiKey.value)] else [];
    var u := if t.baseURL.Some? then [WithBaseURL(t.baseURL.value)] else [];
    var w := if t.useRawBaseURL then [WithUseRawBaseURL] else [];
    assert TrailerOptions(t) == k + (u + w);
    ApplyAllAppend(s, k, u + w, parse);
    ApplyOptional(s, k, parse);
    var s1 := ApplyAll(s, k, parse).state;
    ApplyAllAppend(s1, u, w, parse);
    if t.baseURL.Some? {
      ApplyAllSingle(s1, u[0], parse);
    }
    if !(t.baseURL.Some? && parse(t.baseURL.value).Err?) {
      ApplyOptional(s1, u, parse);
      ApplyOptional(ApplyAll(s1, u, parse).state, w, parse);
    }
  }

  /** The header options of an encoded list never fail: they leave a state whose headers gained the caller's, and the trailer runs on it. */
  lemma HeadersApplied(s: ConfigState, reqOpts: seq<RequestOption>, headers: Header, t: Trailer, parse: Parser) returns (s1: ConfigState)
    requires EncodedAs(reqOpts, headers, t)
    ensures ApplyAll(s, reqOpts, parse) == ApplyAll(s1, TrailerOptions(t), parse)
    ensures s1 == s.(request := s1.request)
    ensures forall k :: Values(s1.request.header, k) == Values(s.request.header, k) + Values(headers, k)
  {
    var n := |reqOpts| - |TrailerOptions(t)|;
    var hs := reqOpts[..n];
    assert reqOpts == hs + TrailerOptions(t);
    ApplyAllAppend(s, hs, TrailerOptions(t), parse);
    ApplyHeaderAdds(s, hs, parse);
    s1 := ApplyAll(s, hs, parse).state;
    forall k
      ensures Values(s1.request.header, k) == Values(s.request.header, k) + Values(headers, k)
    {
      AddAllValues(s.request.header, hs, k);
    }
  }

  /**
   * What an encoder's options do to any request configuration: they fail
   * only on a base URL that does not parse; otherwise every header name
   * gains the caller's values after its own (the authorization header is
   * replaced by the bearer value when a key is sent), and the key, the
   * base URL and the raw flag are set exactly when the trailer carries
   * them.
   */
  lemma EncodedOptionsEffect(s: ConfigState, reqOpts: seq<RequestOption>, headers: Header, t: Trailer, parse: Parser)
    requires EncodedAs(reqOpts, headers, t)
    ensures var r := ApplyAll(s, reqOpts, parse);
      (r.error.Some? <==> t.baseURL.Some? && parse(t.baseURL.value).Err?)
      && (r.error.None? ==>
        && r.state.apiKey == (if t.apiKey.Some? then t.apiKey.value else s.apiKey)
        && r.state.baseURL == (if t.baseURL.Some? then Some(parse(t.baseURL.value).value) else s.baseURL)
        && r.state.useRawBaseURL == (s.useRawBaseURL || t.useRawBaseURL)
        && r.state.defaultBaseURL == s.defaultBaseURL
        && r.state.httpClient == s.httpClient
        && (t.apiKey.Some? ==> Values(r.state.request.header, AuthorizationHeader) == [BearerValue(t.apiKey.value)])
        && forall k :: (t.apiKey.None? || k != AuthorizationHeader) ==>
             Values(r.state.request.header, k) == Values(s.request.header, k) + Values(headers, k))
  {
    var s1 := HeadersApplied(s, reqOpts, headers, t, parse);
    ApplyTrailer(s1, t, parse);
    if !(t.baseURL.Some? && parse(t.baseURL.value).Err?) {
      var s2 := AfterTrailer(s1, t, parse);
      assert ApplyAll(s, reqOpts, parse) == Applied(s2, None);
    }
  }
}
