// The client-side request validators and the service methods that run
// them: a request is checked field by field in a fixed order, the first
// failing check decides the error (for a list, the first failing element,
// by index), and only a request that passes every check is sent, with
// the service's stored options ahead of the call's own. The request
// executor is the parameter `execute`, taking the path, the body and the
// option list; `issued` lists the requests a call sent.

module Validators {

  import opened Common
  import opened Text
  import TeiWire
  import TeiInferenceWire
  import JinaWire
  import ChonkieWire
  import opened RequestOptions
  import Headers

  /** A client service: the request options it was created with. */
  datatype Service = Service(options: seq<RequestOption>)

  /** A request a service method sent: the path and the option list it was executed with. */
  datatype Sent = Sent(path: string, opts: seq<RequestOption>)

  /**
   * The sent list puts the call's options after the stored ones, so a header a call sets
   * replaces the value the service stored under that name, whatever the stored options did.
   */
  lemma CallHeaderOverridesStored(s: ConfigState, service: Service, k: string, v: string, parse: Parser)
    requires ApplyAll(s, service.options, parse).error.None?
    ensures var r := ApplyAll(s, service.options + [WithHeader(k, v)], parse);
      r.error.None? && Headers.Values(r.state.request.header, k) == [v]
  {
    var stored := ApplyAll(s, service.options, parse).state;
    ApplyAllAppend(s, service.options, [WithHeader(k, v)], parse);
    ApplyAllSingle(stored, WithHeader(k, v), parse);
    HeaderSetReplaces(stored, k, v, parse);
  }

  // ---- Lists of strings ----

  /** `i` is the position of the first empty string of `texts`. */
  predicate FirstEmptyAt(texts: seq<string>, i: int)
  {
    0 <= i < |texts| && texts[i] == "" && forall j :: 0 <= j < i ==> texts[j] != ""
  }

  predicate NoEmpty(texts: seq<string>)
  {
    forall i :: 0 <= i < |texts| ==> texts[i] != ""
  }

  /** The element loop: the index of the first empty string, if any. */
  method FirstEmpty(texts: seq<string>) returns (idx: Option<nat>)
    ensures idx.Some? ==> FirstEmptyAt(texts, idx.value)
    ensures idx.None? <==> NoEmpty(texts)
  {
    for i := 0 to |texts|
      invariant forall j :: 0 <= j < i ==> texts[j] != ""
    {
      if texts[i] == "" {
        return Some(i);
      }
    }
    return None;
  }

  /** There is at most one first empty string. */
  lemma FirstEmptyAtUnique(texts: seq<string>, i: int, j: int)
    requires FirstEmptyAt(texts, i) && FirstEmptyAt(texts, j)
    ensures i == j
  {
  }

  /** The message naming element `i` of a list field: "<field>[<i>]: <message>". */
  function AtIndex(field: string, i: nat, message: string): Error
  {
    Failure(field + "[" + NatToString(i) + "]: " + message)
  }

  // ---- Ranking requests (TEI and text-embeddings-inference) ----

  const QueryRequired := Failure("query is required")
  const TextsRequired := Failure("texts: []string must be non-empty")
  const BadDirection := Failure("truncation_direction must be 'Left' or 'Right'")

  /** A truncation direction, when given, is exactly "Left" or "Right". */
  predicate ValidDirection(d: Option<string>)
  {
    d.None? || d.value == "Left" || d.value == "Right"
  }

  /** What a rank request must satisfy to be sent. */
  predicate RankValid(query: string, texts: seq<string>, direction: Option<string>)
  {
    query != "" && texts != [] && NoEmpty(texts) && ValidDirection(direction)
  }

  /**
   * validate: the query, then the list, then its first empty element,
   * then the truncation direction; no error exactly when the request is
   * valid.
   */
  method ValidateRank(query: string, texts: seq<string>, direction: Option<string>) returns (err: Option<Error>)
    ensures err.None? <==> RankValid(query, texts, direction)
    ensures query == "" ==> err == Some(QueryRequired)
    ensures query != "" && texts == [] ==> err == Some(TextsRequired)
    ensures query != "" ==> forall i :: FirstEmptyAt(texts, i) ==> err == Some(AtIndex("texts", i, "empty string"))
    ensures query != "" && texts != [] && NoEmpty(texts) && !ValidDirection(direction) ==> err == Some(BadDirection)
  {
    if query == "" {
      return Some(QueryRequired);
    }
    if |texts| == 0 {
      return Some(TextsRequired);
    }
    var idx := FirstEmpty(texts);
    if idx.Some? {
      return Some(AtIndex("texts", idx.value, "empty string"));
    }
    if direction.Some? {
      if direction.value != "Left" && direction.value != "Right" {
        return Some(BadDirection);
      }
    }
    return None;
  }

  /** RankingService.Rank (TEI): validation first; a valid body is sent to "rerank". */
  method Rank(service: Service, body: TeiWire.RankRequest, opts: seq<RequestOption>,
              execute: (string, TeiWire.RankRequest, seq<RequestOption>) -> Result<seq<TeiWire.RankResult>>)
    returns (r: Result<seq<TeiWire.RankResult>>, issued: seq<Sent>)
    ensures !RankValid(body.query, body.texts, body.truncationDirection) ==> r.Err? && issued == []
    ensures RankValid(body.query, body.texts, body.truncationDirection) ==>
      r == execute("rerank", body, service.options + opts) && issued == [Sent("rerank", service.options + opts)]
  {
    var err := ValidateRank(body.query, body.texts, body.truncationDirection);
    if err.Some? {
      return Err(err.value), [];
    }
    var sent := service.options + opts;
    r := execute("rerank", body, sent);
    issued := [Sent("rerank", sent)];
  }

  /** RerankingService.Rerank (text-embeddings-inference): validation first; a valid body is sent to the base path. */
  method Rerank(service: Service, body: TeiInferenceWire.RerankRequest, opts: seq<RequestOption>,
                execute: (string, TeiInferenceWire.RerankRequest, seq<RequestOption>) -> Result<seq<TeiInferenceWire.RankResult>>)
    returns (r: Result<seq<TeiInferenceWire.RankResult>>, issued: seq<Sent>)
    ensures !RankValid(body.query, body.texts, body.truncationDirection) ==> r.Err? && issued == []
    ensures RankValid(body.query, body.texts, body.truncationDirection) ==>
      r == execute("", body, service.options + opts) && issued == [Sent("", service.options + opts)]
  {
    var err := ValidateRank(body.query, body.texts, body.truncationDirection);
    if err.Some? {
      return Err(err.value), [];
    }
    var sent := service.options + opts;
    r := execute("", body, sent);
    issued := [Sent("", sent)];
  }

  // ---- Embedding inputs (text-embeddings-inference) ----

  const InputsRequired := Failure("inputs is required")
  const EmptyInputString := Failure("input string cannot be empty")
  const EmptyInputsArray := Failure("inputs array cannot be empty")
  const BadInputsType := Failure("inputs must be string or []string")

  /** What the Inputs field must hold: a non-empty string, or a non-empty list of non-empty strings. */
  predicate InputsValid(inputs: TeiInferenceWire.Inputs)
  {
    match inputs
      case TextInput(s) => s != ""
      case TextListInput(ss) => ss != [] && NoEmpty(ss)
      case _ => false
  }

  /** validateEmbedRequest and validateEmbedSparseRequest: the same checks on the Inputs field. */
  method ValidateInputs(inputs: TeiInferenceWire.Inputs) returns (err: Option<Error>)
    ensures err.None? <==> InputsValid(inputs)
    ensures inputs.NilInputs? ==> err == Some(InputsRequired)
    ensures inputs.TextInput? && inputs.text == "" ==> err == Some(EmptyInputString)
    ensures inputs.TextListInput? && inputs.texts == [] ==> err == Some(EmptyInputsArray)
    ensures inputs.TextListInput? ==> forall i :: FirstEmptyAt(inputs.texts, i) ==> err == Some(AtIndex("inputs", i, "empty string"))
    ensures inputs.OtherInputs? ==> err == Some(BadInputsType)
  {
    match inputs {
      case NilInputs =>
        return Some(InputsRequired);
      case TextInput(s) =>
        if s == "" {
          return Some(EmptyInputString);
        }
        return None;
      case TextListInput(ss) =>
        if |ss| == 0 {
          return Some(EmptyInputsArray);
        }
        var idx := FirstEmpty(ss);
        if idx.Some? {
          return Some(AtIndex("inputs", idx.value, "empty string"));
        }
        return None;
      case OtherInputs(_) =>
        return Some(BadInputsType);
    }
  }

  /** EmbeddingService.New (text-embeddings-inference): validation first; a valid body is sent to "embed". */
  method NewEmbedding(service: Service, body: TeiInferenceWire.EmbedRequest, opts: seq<RequestOption>,
                      execute: (string, TeiInferenceWire.EmbedRequest, seq<RequestOption>) -> Result<seq<seq<Float64>>>)
    returns (r: Result<seq<seq<Float64>>>, issued: seq<Sent>)
    ensures !InputsValid(body.inputs) ==> r.Err? && issued == []
    ensures InputsValid(body.inputs) ==>
      r == execute("embed", body, service.options + opts) && issued == [Sent("embed", service.options + opts)]
  {
    var err := ValidateInputs(body.inputs);
    if err.Some? {
      return Err(err.value), [];
    }
    var sent := service.options + opts;
    r := execute("embed", body, sent);
    issued := [Sent("embed", sent)];
  }

  /** EmbeddingService.NewSparse (text-embeddings-inference): validation first; a valid body is sent to the base path. */
  method NewSparse(service: Service, body: TeiInferenceWire.EmbedSparseRequest,
                   opts: seq<RequestOption>,
                   execute: (string, TeiInferenceWire.EmbedSparseRequest, seq<RequestOption>) -> Result<seq<seq<TeiInferenceWire.SparseValue>>>)
    returns (r: Result<seq<seq<TeiInferenceWire.SparseValue>>>, issued: seq<Sent>)
    ensures !InputsValid(body.inputs) ==> r.Err? && issued == []
    ensures InputsValid(body.inputs) ==>
      r == execute("", body, service.options + opts) && issued == [Sent("", service.options + opts)]
  {
    var err := ValidateInputs(body.inputs);
    if err.Some? {
      return Err(err.value), [];
    }
    var sent := service.options + opts;
    r := execute("", body, sent);
    issued := [Sent("", sent)];
  }

  // ---- Jina text embedding ----

  const ModelRequired := Failure("model is required")
  const InputRequired := Failure("input: []string must be non-empty")

  predicate TextParamsValid(p: JinaWire.TextParams)
  {
    p.model != "" && p.input != [] && NoEmpty(p.input)
  }

  /** validate (Jina text embedding): the model, then the list, then its first empty element. */
  method ValidateTextParams(p: JinaWire.TextParams) returns (err: Option<Error>)
    ensures err.None? <==> TextParamsValid(p)
    ensures p.model == "" ==> err == Some(ModelRequired)
    ensures p.model != "" && p.input == [] ==> err == Some(InputRequired)
    ensures p.model != "" ==> forall i :: FirstEmptyAt(p.input, i) ==> err == Some(AtIndex("input", i, "empty string"))
  {
    if p.model == "" {
      return Some(ModelRequired);
    }
    if |p.input| == 0 {
      return Some(InputRequired);
    }
    var idx := FirstEmpty(p.input);
    if idx.Some? {
      return Some(AtIndex("input", idx.value, "empty string"));
    }
    return None;
  }

  /** EmbeddingService.New (Jina): validation first; a valid body is sent to "embeddings", and a transport error is wrapped. */
  method NewJinaEmbedding(service: Service, body: JinaWire.TextParams, opts: seq<RequestOption>,
                          execute: (string, JinaWire.TextParams, seq<RequestOption>) -> Result<JinaWire.EmbeddingResponse>)
    returns (r: Result<JinaWire.EmbeddingResponse>, issued: seq<Sent>)
    ensures !TextParamsValid(body) ==> r.Err? && issued == []
    ensures TextParamsValid(body) ==> issued == [Sent("embeddings", service.options + opts)]
    ensures TextParamsValid(body) && execute("embeddings", body, service.options + opts).Err? ==>
      r == Err(Wrapped("jina embedding new", execute("embeddings", body, service.options + opts).error))
    ensures TextParamsValid(body) && execute("embeddings", body, service.options + opts).Ok? ==> r == execute("embeddings", body, service.options + opts)
  {
    var err := ValidateTextParams(body);
    if err.Some? {
      return Err(err.value), [];
    }
    var sent := service.options + opts;
    issued := [Sent("embeddings", sent)];
    var res := execute("embeddings", body, sent);
    if res.Err? {
      return Err(Wrapped("jina embedding new", res.error)), issued;
    }
    r := res;
  }

  // ---- Multimodal items (Jina and Chonkie) ----

  const BothTextAndImage := Failure("MultiModalEmbeddingInput: exactly one of text or image must be set (not both)")
  const NeitherTextNorImage := Failure("MultiModalEmbeddingInput: one of text or image must be set")
  const MultimodalInputRequired := Failure("input: []MultiModalEmbeddingInput must be non-empty")

  /** A pointer to a non-empty string: a pointer to "" counts as absent. */
  predicate Present(s: Option<string>)
  {
    s.Some? && s.value != ""
  }

  /** An item's validate: exactly one of text and image must be present. */
  function ValidateItem(text: Option<string>, image: Option<string>): (err: Option<Error>)
    ensures err.None? <==> Present(text) != Present(image)
    ensures Present(text) && Present(image) ==> err == Some(BothTextAndImage)
    ensures !Present(text) && !Present(image) ==> err == Some(NeitherTextNorImage)
  {
    var hasText := text.Some? && text.value != "";
    var hasImage := image.Some? && image.value != "";
    if hasText && hasImage then Some(BothTextAndImage)
    else if !hasText && !hasImage then Some(NeitherTextNorImage)
    else None
  }

  /** `i` is the position of the first item `check` rejects. */
  predicate FirstFailingAt<T>(items: seq<T>, check: T -> Option<Error>, i: int)
  {
    0 <= i < |items| && check(items[i]).Some? && forall j :: 0 <= j < i ==> check(items[j]).None?
  }

  /** What multimodal parameters must satisfy to be sent. */
  predicate MultimodalValid<T>(model: string, items: seq<T>, check: T -> Option<Error>)
  {
    model != "" && items != [] && forall i :: 0 <= i < |items| ==> check(items[i]).None?
  }

  /** The params validate: the model, then the list, then the first invalid item, its error wrapped with its index. */
  method ValidateMultimodal<T>(model: string, items: seq<T>, check: T -> Option<Error>) returns (err: Option<Error>)
    ensures err.None? <==> MultimodalValid(model, items, check)
    ensures model == "" ==> err == Some(ModelRequired)
    ensures model != "" && items == [] ==> err == Some(MultimodalInputRequired)
    ensures model != "" ==> forall i :: FirstFailingAt(items, check, i) ==>
      err == Some(Wrapped("input[" + NatToString(i) + "]", check(items[i]).value))
  {
    if model == "" {
      return Some(ModelRequired);
    }
    if |items| == 0 {
      return Some(MultimodalInputRequired);
    }
    for i := 0 to |items|
      invariant forall j :: 0 <= j < i ==> check(items[j]).None?
    {
      var e := check(items[i]);
      if e.Some? {
        assert FirstFailingAt(items, check, i);
        return Some(Wrapped("input[" + NatToString(i) + "]", e.value));
      }
    }
    return None;
  }

  function JinaItemCheck(it: JinaWire.MultimodalInput): Option<Error>
  {
    ValidateItem(it.text, it.image)
  }

  function ChonkieItemCheck(it: ChonkieWire.MultimodalInput): Option<Error>
  {
    ValidateItem(it.text, it.image)
  }

  /** EmbeddingService.NewMultiModal (Jina): validation first; a valid body is sent to "embeddings", errors unwrapped. */
  method NewJinaMultiModal(service: Service, body: JinaWire.MultimodalParams, opts: seq<RequestOption>,
                           execute: (string, JinaWire.MultimodalParams, seq<RequestOption>) -> Result<JinaWire.EmbeddingResponse>)
    returns (r: Result<JinaWire.EmbeddingResponse>, issued: seq<Sent>)
    ensures !MultimodalValid(body.model, body.input, JinaItemCheck) ==> r.Err? && issued == []
    ensures MultimodalValid(body.model, body.input, JinaItemCheck) ==>
      r == execute("embeddings", body, service.options + opts) && issued == [Sent("embeddings", service.options + opts)]
  {
    var err := ValidateMultimodal(body.model, body.input, JinaItemCheck);
    if err.Some? {
      return Err(err.value), [];
    }
    var sent := service.options + opts;
    r := execute("embeddings", body, sent);
    issued := [Sent("embeddings", sent)];
  }

  /** EmbeddingService.NewMultiModal (Chonkie): validation first; a transport error is wrapped. */
  method NewChonkieMultiModal(service: Service, body: ChonkieWire.MultimodalParams, opts: seq<RequestOption>,
                              execute: (string, ChonkieWire.MultimodalParams, seq<RequestOption>) -> Result<seq<seq<Float64>>>)
    returns (r: Result<seq<seq<Float64>>>, issued: seq<Sent>)
    ensures !MultimodalValid(body.model, body.input, ChonkieItemCheck) ==> r.Err? && issued == []
    ensures MultimodalValid(body.model, body.input, ChonkieItemCheck) ==> issued == [Sent("embeddings", service.options + opts)]
    ensures MultimodalValid(body.model, body.input, ChonkieItemCheck) && execute("embeddings", body, service.options + opts).Err? ==>
      r == Err(Wrapped("failed to create multi-modal embedding", execute("embeddings", body, service.options + opts).error))
    ensures MultimodalValid(body.model, body.input, ChonkieItemCheck) && execute("embeddings", body, service.options + opts).Ok? ==> r == execute("embeddings", body, service.options + opts)
  {
    var err := ValidateMultimodal(body.model, body.input, ChonkieItemCheck);
    if err.Some? {
      return Err(err.value), [];
    }
    var sent := service.options + opts;
    issued := [Sent("embeddings", sent)];
    var res := execute("embeddings", body, sent);
    if res.Err? {
      return Err(Wrapped("failed to create multi-modal embedding", res.error)), issued;
    }
    r := res;
  }
}
