# Provider adapters of go.jetify.com/ai, modelled in Dafny

This project models the adapter layer of go.jetify.com/ai (the Clinia fork).
That layer turns the library's unified calls (embed, sparse-embed, rank,
chunk, segment) into requests for several inference backends:
- Clinia/Triton over gRPC;
- TEI and text-embeddings-inference over HTTP;
- Jina, Chonkie and OpenAI over HTTP.

The model covers:
- the functional options that build per-call option records
  (`buildTransportConfig`, `buildEmbeddingConfig`, and the ranking,
  chunking, segmenting and sparse-embedding builders);
- the request options of the HTTP clients and the two request
  configurations (Chonkie and TEI) that apply them and execute a request;
- the codecs, which turn options into wire parameters and request options
  and turn responses into results;
- the client-side validators;
- the model-id parsing of the Triton and Clinia providers;
- the provider constructors;
- the call orchestration: the Jina segmenter, the text-embeddings-inference
  ranker, and the Triton and Clinia adapters. In the Triton and Clinia
  adapters a requester is acquired per call and closed on every path.

How the Go code is represented:
- Go values become datatypes, and Go errors become `Result`/`Option`
  values. Error texts are kept as the source writes them.
- Objects that are updated in place are classes: the request
  configurations and the HTTP providers.
- Loops over inputs are methods with loop invariants, proved against a
  specification function. Properties about the specification function
  are proved as lemmas.
- The following are function parameters that the model never looks
  inside:
  - the network, the gRPC requester, JSON marshalling, URL parsing and
    resolution;
  - float conversion and the Triton wire codec.
- openai-go's own request-option package is not part of this model. The
  OpenAI encoder's options are written as `RequestOptions.RequestOption`
  values of the same names (add-header and base URL), which stand for it.
- Some specification functions carry no contract of their own and are
  stated through the members that use them: `RequestOptions.ApplyOption`
  and `RequestOptions.ApplyAll` (through the option lemmas and the request
  configurations), `Validators.RankValid`, `InputsValid`, `TextParamsValid`
  and `MultimodalValid` (through the validators, which pass exactly when
  they hold), `Scores.LastScoreAt` (through `Scores.Scatter`) and
  `TeiInferenceCodec.SparseTable` (through `SparseTableKeys` and
  `SparseTableLastWins`).

Files, by module:
- `common.dfy` (Common): results, errors, bytes, float bit patterns.
- `text.dfy` (Text): the string helpers (`strings.TrimSpace`, `strings.Split`, `strconv.Itoa`).
- `headers.dfy` (Headers): an `http.Header` table with Get, Set, Add and Del.
- `metadata.dfy` (Metadata): the provider-metadata bag and the typed getters.
- `call_options.dfy` (CallOptions): the per-call option records and their builders.
- `request_options.dfy` (RequestOptions): the HTTP request options and their effect on a request configuration.
- `chonkie_requestconfig.dfy` and `tei_requestconfig.dfy`: the two request configurations.
- `header_options.dfy` and `encoder_options.dfy`: `applyHeaders` and the option lists the encoders build.
- `wire.dfy` and `api.dfy`: wire and result types.
- `scores.dfy`, `segments.dfy` and `vectors.dfy`: the decoding loops that the codecs share.
- The codecs:
  - `tei_codec.dfy` for TEI;
  - `tei_inference_codec.dfy` for text-embeddings-inference;
  - `jina_codec.dfy`, `chonkie_codec.dfy`, `openai_codec.dfy` and `clinia_codec.dfy`.
- `validators.dfy`: the client request validators.
- `model_id.dfy` (ModelId): `splitModelID`, `validateNameVersion` and `splitModelIdentifier`.
- `providers.dfy` (HttpProviders): the Chonkie, TEI, Jina and OpenAI providers.
- `jina_segmenting.dfy` and `tei_inference_ranking.dfy`: the Jina and text-embeddings-inference adapters.
- `clinia_client.dfy`, `triton.dfy` and `clinia_adapter.dfy`: the gRPC-backed providers.

## Model

| member | source | states |
|---|---|---|
| Common.BytesToString | provider/chonkie/client/internal/requestconfig/requestconfig.go:118 | Go's `string(body)`: one character per byte, in order, the same length as the bytes |
| Text.TrimLeft | provider/triton/model_util.go:12 | the longest suffix that does not start with white space; what it cuts is all white space |
| Text.TrimRight | provider/triton/model_util.go:12 | the longest prefix that does not end with white space; what it cuts is all white space |
| Text.TrimSpace | provider/clinia/embedding.go:81 | no longer than the input, and neither starting nor ending with white space |
| Text.TrimSpaceSlice | provider/clinia/embedding.go:81 | the trimmed string is a slice of the input with only white space cut from either end |
| Text.TrimSpaceEmptyIffBlank | provider/triton/model_util.go:12-15 | a string trims to "" exactly when it is all white space, both directions |
| Text.TrimSpaceIdempotent | provider/triton/model_util.go:21-22 | trimming a trimmed string changes nothing |
| Text.TrimSpaceUnpadded | provider/triton/model_util.go:12 | a string that neither starts nor ends with white space is its own trim |
| Text.IndexOf | provider/triton/model_util.go:17 | none exactly when the rune is absent; otherwise the position of its first occurrence |
| Text.IndexOfAfter | provider/triton/model_util.go:17 | when `head` holds no separator, the first separator of `head + sep + tail` is the one right after `head` |
| Text.Split | provider/clinia/embedding.go:86 | at least one piece, and no piece holds the separator |
| Text.SplitNoSeparator | provider/clinia/embedding.go:86 | a string without the separator is its own single piece |
| Text.SplitAfter | provider/clinia/embedding.go:86 | a separator-free head before the first separator is the first piece, followed by the pieces of the rest |
| Text.JoinSplit | provider/clinia/embedding.go:86 | joining the pieces with the separator gives the string back |
| Text.SplitJoin | provider/clinia/embedding.go:86 | splitting the join of separator-free pieces gives the pieces back |
| Text.SplitN2 | provider/triton/model_util.go:17 | one piece (the whole string) exactly when there is no separator; otherwise two pieces around the first separator, the first separator-free |
| Text.SplitN2AgreesWithSplit | provider/triton/model_util.go:17 | the two-piece split has the full split's first piece as head and the join of its other pieces as tail |
| Text.NatToString | provider/tei/client/text_ranking.go:24 | `%d` of a non-negative value: at least one character, all decimal digits |
| Text.ParseNatToString | provider/tei/client/text_ranking.go:24 | reading the digits back gives the value |
| Text.IntToString | provider/textembeddinginference/internal/codec/decode_sparse_embedding.go:28 | `%d` of any integer: never the empty string |
| Text.ParseIntToString | provider/textembeddinginference/internal/codec/decode_sparse_embedding.go:28 | reading the rendering back, sign included, gives the integer |
| Text.IntToStringInjective | provider/textembeddinginference/internal/codec/decode_sparse_embedding.go:28-29 | two integers render alike exactly when they are equal, so distinct sparse indices get distinct keys |
| Headers.Get | provider/chonkie/client/internal/requestconfig/requestconfig.go:125 | the first value recorded for a name, or "" when it has none |
| Headers.Set | provider/internal/requesterx/requestoption.go:22-27 | the name ends with exactly the one value; every other name keeps its values |
| Headers.Add | provider/internal/requesterx/requestoption.go:31-36 | the value is appended after the name's existing values; other names unchanged |
| Headers.Del | provider/internal/requesterx/requestoption.go:39-44 | the name has no values afterwards; other names unchanged |
| Metadata.Lookup | provider/textembeddinginference/ranking.go:78-79 | a value is found exactly when there is a bag and it has an entry for the provider, and it is that entry |
| Metadata.Store | transport_options.go:29-36 | a nil bag is created first; afterwards the provider maps to the new value and every other provider keeps its entry |
| Metadata.StoreThenStore | transport_options.go:29-36 | of two stores the later one wins for the same provider; for different providers both entries remain |
| Metadata.TeiEmbedMetadata | provider/tei/internal/codec/metadata.go:8-10 | TEI embedding parameters are found exactly when the "text-embedding-inference" entry holds that type, and are that entry |
| Metadata.TeiSparseMetadata | provider/tei/internal/codec/metadata.go:12-14 | the same for the TEI sparse-embedding parameters |
| Metadata.TeiRankMetadata | provider/tei/internal/codec/metadata.go:16-18 | the same for the TEI rank request |
| Metadata.TeiInferenceEmbedMetadata | provider/textembeddinginference/internal/codec/metadata.go:8-10 | the same for the text-embeddings-inference embed request |
| Metadata.TeiInferenceSparseMetadata | provider/textembeddinginference/internal/codec/encode_sparse_embedding.go:32-35 | the same for the text-embeddings-inference sparse request |
| Metadata.TeiInferenceRankMetadata | provider/textembeddinginference/internal/codec/encode_ranking.go:33-36 | the same for the text-embeddings-inference rank request |
| Metadata.JinaTextMetadata | provider/jina/internal/codec/metadata.go:8-10 | the same for the Jina text-embedding parameters under "jina" |
| Metadata.JinaMultimodalMetadata | provider/jina/internal/codec/metadata.go:12-14 | the same for the Jina multimodal parameters under "jina" |
| Metadata.CliniaMeta | provider/clinia/internal/codec/metadata.go:15-17 | the same for the Clinia metadata under "clinia" |
| Metadata.WrongTypeIsMiss | provider/tei/internal/codec/metadata.go:8-18 | a value of another type under a provider's key reads as no metadata |
| Metadata.Overlay | provider/tei/internal/codec/encode_embedding.go:57-71 | a field the metadata sets replaces the built one; an unset field keeps the built value |
| CallOptions.BaseURLText | provider/tei/internal/codec/encode_embedding.go:30-32 | the base URL as a string: its text when set, "" when nil |
| CallOptions.ApplySetter | transport_options.go:14-52 | each option writes only its own field: headers and API key replaced, base URL set, raw flag raised, metadata stored into the (possibly new) bag |
| CallOptions.BuildTransportConfig | transport_options.go:55-61 | the result is the options folded over the zero record, in list order |
| CallOptions.FoldSettersAppend | transport_options.go:57-59 | folding a concatenation is folding the second list over the first's result |
| CallOptions.UntouchedField | transport_options.go:55-61 | a field no option targets keeps its value |
| CallOptions.LastWriteWins | transport_options.go:55-61 | of the options writing a non-metadata field, the last one decides its value |
| CallOptions.MetadataEntryKept | transport_options.go:29-36 | a metadata entry is kept by every option that does not set the same provider |
| CallOptions.MetadataEntrySurvives | transport_options.go:29-36 | a metadata option's entry survives to the built record unless a later option sets the same provider |
| CallOptions.MetadataMerges | transport_options.go:29-36 | two metadata options for different providers both end up in one bag |
| CallOptions.UseRawBaseURLIdempotent | transport_options.go:48-52 | the raw-URL option raises the flag, and applying it twice equals applying it once |
| CallOptions.HeadersReplaced | transport_options.go:14-18 | a later headers option replaces the whole table; nothing earlier is merged in |
| CallOptions.BuildEmbeddingConfig | embedding_options.go:62-68 | the result is the embedding options folded over the zero record, in list order |
| CallOptions.Lift | embedding_options.go:14-52 | each field setter becomes the embedding option that makes the same change, position by position |
| CallOptions.EmbeddingMatchesTransport | embedding_options.go:14-52 | without a whole-record option, an embedding build equals the transport build of the same setters |
| CallOptions.FoldEmbeddingAppend | embedding_options.go:62-68 | folding a concatenation is folding the second list over the first's result |
| CallOptions.ReplaceDiscardsEarlier | embedding_options.go:55-59 | WithEmbeddingEmbeddingOptions discards every earlier option; only later options act on the replacement |
| CallOptions.ReplaceOrderMatters | embedding_options.go:55-59 | from any record, a replacement after an API-key setter yields exactly the replacing record; a setter after a replacement yields the replacing record with that key |
| CallOptions.ApplyScoped | ranking_options.go:14-37 | a scoped option writes only its own field; metadata is stored into the (possibly new) bag |
| CallOptions.BuildScopedConfig | ranking_options.go:39-45 | the result is the options folded over the zero record; the chunking, segmenting and sparse builders have the same shape |
| CallOptions.AsSetters | ranking_options.go:14-37 | each scoped option corresponds to the transport option with the same effect, position by position |
| CallOptions.ScopedIsRestriction | chunking_options.go:14-45 | a scoped build equals the transport build restricted to headers, base URL and metadata |
| CallOptions.ScopedLastWriteWins | segmenting_options.go:13-38 | the last headers option decides the headers, and the last base-URL option decides the base URL |
| CallOptions.ScopedMetadataSurvives | sparse_embedding_options.go:19-26 | a scoped metadata entry survives unless a later option sets the same provider |
| CallOptions.ScopedUntouched | sparse_embedding_options.go:28-34 | a field no scoped option writes keeps its value |
| RequestOptions.DefaultBaseURLOption | provider/internal/requesterx/requestoption.go:68-77 | the URL is parsed when the option is built, and the option carries that parse's outcome |
| RequestOptions.ApplyAllAppend | provider/chonkie/client/internal/requestconfig/requestconfig.go:148-155 | applying two lists equals applying the first, then the second only if the first did not fail |
| RequestOptions.ApplyAllSingle | provider/chonkie/client/internal/requestconfig/requestconfig.go:148-155 | a one-option list applies that option: its error with the state unchanged, or its new state with no error |
| RequestOptions.ApplyAllPair | provider/chonkie/client/internal/requestconfig/requestconfig.go:148-155 | the second of two options is applied to what the first produced |
| RequestOptions.StopsAtFirstError | provider/chonkie/client/internal/requestconfig/requestconfig.go:148-155 | the first failing option's error is returned; options after it have no effect, and earlier ones keep theirs |
| RequestOptions.NoErrorWhenAllSucceed | provider/internal/requesterx/requestoption.go:22-63 | a list without base-URL options never fails |
| RequestOptions.HeaderSetReplaces | provider/internal/requesterx/requestoption.go:22-27 | WithHeader leaves exactly one value under its name and changes nothing else |
| RequestOptions.HeaderAddsAccumulate | provider/internal/requesterx/requestoption.go:31-36 | successive WithHeaderAdd values follow the existing ones, in order; other names unchanged |
| RequestOptions.HeaderDelRemoves | provider/internal/requesterx/requestoption.go:39-44 | WithHeaderDel removes every value under its name and changes nothing else |
| RequestOptions.ApiKeyLastWins | provider/internal/requesterx/requestoption.go:58-63 | the key is stored and sent as "authorization: Bearer <key>"; of two keys the later one wins |
| RequestOptions.HttpClientOnlyWhenNonNil | provider/internal/requesterx/requestoption.go:48-55 | a nil client is ignored; a non-nil one replaces the current client |
| RequestOptions.BaseURLParsedOnApply | provider/internal/requesterx/requestoption.go:9-18 | WithBaseURL parses when applied: a parse error is returned with nothing changed; otherwise the base URL is set |
| RequestOptions.DefaultBaseURLErrorDeferred | provider/internal/requesterx/requestoption.go:68-77 | a WithDefaultBaseURL whose URL did not parse fails only when applied, with that parse error, and changes nothing |
| RequestOptions.UseRawBaseURLIdempotent | provider/internal/requesterx/requestoption.go:81-86 | WithUseRawBaseURL only raises the raw flag; raising it twice equals raising it once |
| RequestOptions.ChonkieEnvironmentProduction | provider/chonkie/client/option/requestoption.go:83-85 | the Chonkie production option is the default-base-URL option for "https://api.chonkie.ai/v1/" |
| RequestOptions.TeiInferenceEnvironmentProduction | provider/textembeddinginference/client/option/requestoption.go:76-78 | the text-embeddings-inference production option is the default-base-URL option for "http://localhost:8080" |
| RequestOptions.JinaEnvironmentProduction | provider/jina/client/option/requestoption.go:10-12 | the Jina production option is the default-base-URL option for "https://api.jina.ai/v1/" |
| RequestOptions.EnvironmentSetsOnlyDefault | provider/chonkie/client/internal/requestconfig/requestconfig.go:157-169 | a default-base-URL option that parsed sets the default base URL and nothing else |
| RequestOptions.WithoutRawFlagKeepsFlag | provider/textembeddinginference/client/option/requestoption.go:15-78 | options of a package without a raw-URL option never change the raw flag |
| RequestOptions.InitialState | provider/chonkie/client/internal/requestconfig/requestconfig.go:61-68 | a new configuration has JSON Content-Type and Accept headers, no base URLs, the default client, no key, no raw flag, and the given destination |
| RequestOptions.NewConfig | provider/chonkie/client/internal/requestconfig/requestconfig.go:40-75 | a body marshalling error comes first, then a request-building error; on success the configuration is the initial one with every option applied without error |
| RequestOptions.OptionsOverrideDefaults | provider/chonkie/client/internal/requestconfig/requestconfig.go:61-70 | an option setting Accept overrides the JSON default, and Content-Type keeps its default |
| RequestOptions.EffectiveBaseURL | provider/chonkie/client/internal/requestconfig/requestconfig.go:92-98 | the explicit base URL when set, otherwise the default one |
| ChonkieRequestConfig.DefaultBaseURLFallback | provider/chonkie/client/internal/requestconfig/requestconfig.go:92-95 | without an explicit base URL the default one is used and stored as the base URL, and the request is sent |
| ChonkieRequestConfig.NoBaseURLSendsNothing | provider/chonkie/client/internal/requestconfig/requestconfig.go:92-97 | with neither base URL nothing is sent or stored, the configuration is unchanged, and the error is "requestconfig: base url is not set" |
| ChonkieRequestConfig.FinalURL | provider/chonkie/client/internal/requestconfig/requestconfig.go:100-108 | with the raw flag the request goes to the base URL itself; otherwise to the request path resolved against it; headers are kept |
| ChonkieRequestConfig.ErrorStatusReported | provider/chonkie/client/internal/requestconfig/requestconfig.go:116-119 | a status of 400 or more gives "chonkie API error: status=<n> body=<body>" and stores nothing |
| ChonkieRequestConfig.NonJsonDestinations | provider/chonkie/client/internal/requestconfig/requestconfig.go:121-144 | a non-JSON success stores nothing without a destination; otherwise a read error is reported, and bytes or text are stored, and any other destination is an error naming its type |
| ChonkieRequestConfig.JsonResponseDecoded | provider/chonkie/client/internal/requestconfig/requestconfig.go:125-128 | a JSON success is given to the JSON decoder, and its error is the result |
| ChonkieRequestConfig.RequestConfig.constructor | provider/chonkie/client/internal/requestconfig/requestconfig.go:64-68 | the object holds exactly the given configuration |
| ChonkieRequestConfig.RequestConfig.ApplyOne | provider/chonkie/client/option/requestoption.go:15-78 | one option updates the fields it names, or returns its error and changes nothing |
| ChonkieRequestConfig.RequestConfig.Apply | provider/chonkie/client/internal/requestconfig/requestconfig.go:148-155 | the new state and error are those of applying the options in order and stopping at the first failure |
| ChonkieRequestConfig.RequestConfig.Execute | provider/chonkie/client/internal/requestconfig/requestconfig.go:91-145 | the final state, the request sent, what was stored and the error are those the executor specification gives for the starting state |
| ChonkieRequestConfig.NewRequestConfig | provider/chonkie/client/internal/requestconfig/requestconfig.go:40-75 | returns a fresh configuration holding NewConfig's state when that succeeds, and otherwise no configuration and its error |
| ChonkieRequestConfig.ExecuteNewRequest | provider/chonkie/client/internal/requestconfig/requestconfig.go:77-89 | a construction error is returned without sending; otherwise the result is Execute's on the new configuration |
| TeiRequestConfig.DefaultBaseURLFallback | provider/tei/client/internal/requestconfig/requestconfig.go:89-92 | without an explicit base URL the default one is used and stored, and the request is sent |
| TeiRequestConfig.NoBaseURLSendsNothing | provider/tei/client/internal/requestconfig/requestconfig.go:89-94 | with neither base URL nothing is sent, the configuration is unchanged, and the error is "requestconfig: base url is not set" |
| TeiRequestConfig.FinalURL | provider/tei/client/internal/requestconfig/requestconfig.go:97-99 | the request path is always resolved against the base URL; headers are kept |
| TeiRequestConfig.ErrorStatusReported | provider/tei/client/internal/requestconfig/requestconfig.go:107-110 | a status of 400 or more gives "TEI API error: status=<n> body=<body> request=<url>" and stores nothing |
| TeiRequestConfig.NonJsonDestinations | provider/tei/client/internal/requestconfig/requestconfig.go:112-137 | a non-JSON success stores nothing without a destination; otherwise bytes or text are stored, a read error is reported, and other destinations give "unsupported response body type: <type>" |
| TeiRequestConfig.JsonResponseDecoded | provider/tei/client/internal/requestconfig/requestconfig.go:116-119 | a JSON success is given to the JSON decoder, and its error is the result |
| TeiRequestConfig.RequestConfig.constructor | provider/tei/client/internal/requestconfig/requestconfig.go:37-72 | the object holds exactly the given configuration, which never has the raw flag |
| TeiRequestConfig.RequestConfig.ApplyOne | provider/textembeddinginference/client/option/requestoption.go:15-71 | one option updates the fields it names, or returns its error and changes nothing |
| TeiRequestConfig.RequestConfig.Apply | provider/tei/client/internal/requestconfig/requestconfig.go:143-150 | the new state and error are those of applying the options in order and stopping at the first failure |
| TeiRequestConfig.RequestConfig.Execute | provider/tei/client/internal/requestconfig/requestconfig.go:88-140 | the final state, the request sent, what was stored and the error are those the executor specification gives |
| TeiRequestConfig.NewRequestConfig | provider/tei/client/internal/requestconfig/requestconfig.go:37-72 | returns a fresh configuration holding NewConfig's state when that succeeds, and otherwise no configuration and its error |
| TeiRequestConfig.ExecuteNewRequest | provider/tei/client/internal/requestconfig/requestconfig.go:74-86 | a construction error is returned without sending; otherwise the result is Execute's on the new configuration |
| HeaderOptions.ValuesForAppend | provider/tei/internal/codec/encode_embedding.go:42-50 | the values the options of a concatenation give a name are those of the first list followed by those of the second |
| HeaderOptions.CountOverRemove | provider/tei/internal/codec/encode_embedding.go:44-48 | counting the values under a set of names splits into one name plus the rest, whichever name comes first |
| HeaderOptions.AddsFor | provider/tei/internal/codec/encode_embedding.go:45-47 | one add-header option per value of a name, in value order |
| HeaderOptions.ValuesForAdds | provider/tei/internal/codec/encode_embedding.go:45-47 | the options for one name give that name exactly its values and every other name none |
| HeaderOptions.AddsForSnoc | provider/tei/internal/codec/encode_embedding.go:45-47 | the options for one more value are the earlier options plus that value's add-header option |
| HeaderOptions.ExpandStep | provider/tei/internal/codec/encode_embedding.go:44-48 | adding the options of one more name keeps the partial expansion consistent |
| HeaderOptions.ExpandStepValues | provider/tei/internal/codec/encode_embedding.go:44-48 | adding one more name's options gives that name all its values and leaves every other name's values as before |
| HeaderOptions.ApplyHeaders | provider/tei/internal/codec/encode_embedding.go:42-50 | the result is one add-header option per value, grouped by name in some order of the names, and every name's values in table order |
| HeaderOptions.ExpansionsAgree | provider/tei/internal/codec/encode_embedding.go:42-50 | any two expansions of the same table have the same length and give every name the same values, whatever order the map iteration took |
| HeaderOptions.EmptyTableNoOptions | provider/tei/internal/codec/encode_embedding.go:42-50 | an empty table expands to no options |
| HeaderOptions.SingleValueExpansion | provider/tei/internal/codec/encode_embedding.go:42-50 | a table with one name and one value expands to exactly its add-header option |
| EncoderOptions.TrailerOptions | provider/tei/internal/codec/encode_embedding.go:26-32 | the key option, base-URL option and raw-flag option appear only when present; none is a header option, and the raw option appears exactly when the flag is set |
| EncoderOptions.EncodeOptions | provider/tei/internal/codec/encode_embedding.go:17-32 | the list is the header expansion followed by the trailer |
| EncoderOptions.AddAllValues | provider/tei/internal/codec/encode_embedding.go:42-50 | after a run of add-header options every name has its old values followed by the added ones |
| EncoderOptions.ApplyHeaderAdds | provider/internal/requesterx/requestoption.go:31-36 | add-header options never fail and change only the header table |
| EncoderOptions.HeadersApplied | provider/tei/internal/codec/encode_embedding.go:17-32 | applying an encoder's list is applying its trailer to a state whose headers gained every header value of the call, and nothing else changed |
| EncoderOptions.AfterTrailer | provider/tei/internal/codec/encode_embedding.go:26-32 | after the trailer: the key is set when sent and the authorization header becomes the bearer value; the base URL is set when given; the raw flag is raised when set; other fields are kept |
| EncoderOptions.ApplyOptional | provider/chonkie/client/internal/requestconfig/requestconfig.go:148-155 | a list of at most one option that cannot fail applies it without error |
| EncoderOptions.ApplyTrailer | provider/tei/internal/codec/encode_embedding.go:26-32 | the trailer fails exactly when its base URL does not parse, and otherwise yields the state AfterTrailer describes |
| EncoderOptions.EncodedOptionsEffect | provider/tei/internal/codec/encode_embedding.go:17-32 | an encoder's option list fails only on an unparsable base URL; otherwise every header name gains the caller's values after its own, and the key, base URL and raw flag are set exactly as the trailer says |
| Scores.LastScoreAtLastWriter | provider/tei/internal/codec/decode_ranking.go:37-41 | when a result is the last one with its index, its score is the one kept there |
| Scores.LastScoreAtUnnamed | provider/tei/internal/codec/decode_ranking.go:34-41 | a position no result names keeps the zero score |
| Scores.MaxIndex | provider/tei/internal/codec/decode_ranking.go:20-25 | never below -1, at least every result's index, and, when non-negative, the index of some result |
| Scores.MaxIndexOf | provider/tei/internal/codec/decode_ranking.go:20-25 | the loop's result is the largest index, or -1 when no index is non-negative |
| Scores.Scatter | provider/tei/internal/codec/decode_ranking.go:34-41 | n scores, where score k is the last score reported for index k, or 0 when none is; out-of-range indices are dropped |
| Segments.Decoded | provider/jina/internal/codec/encode_segmenting.go:45-53 | one segment per chunk, in chunk order |
| Segments.DecodeSegment | provider/jina/internal/codec/encode_segmenting.go:41-55 | a nil response is an error with the decoder's message; otherwise the decoded segments |
| Segments.SegmentIdsDistinct | provider/jina/internal/codec/encode_segmenting.go:47 | distinct chunks get distinct ids ("c0", "c1", ...) |
| Segments.UnpositionedChunk | provider/jina/internal/codec/encode_segmenting.go:48-51 | a chunk without a two-element position pair gets start and end 0 |
| Vectors.CopyVector | provider/tei/internal/codec/decode_embedding.go:20-21 | the copy equals the vector, entry by entry |
| Vectors.CopyVectors | provider/tei/internal/codec/decode_embedding.go:17-23 | one copy per vector, equal to the input |
| Vectors.Widened | provider/clinia/internal/codec/embedding.go:46-49 | the same length, and each entry is the float64 value of the float32 entry at its position |
| Vectors.WidenVector | provider/clinia/internal/codec/embedding.go:46-49 | the loop computes the widened vector |
| Vectors.WidenVectors | provider/clinia/internal/codec/embedding.go:44-51 | the outer length is kept, and each vector is widened in its place |
| TeiCodec.TeiTrailer | provider/tei/internal/codec/encode_embedding.go:26-32 | a key option exactly when the API key is non-empty; a base-URL option exactly when the base URL is non-empty; never the raw flag |
| TeiCodec.ApplyProviderMetadata | provider/tei/internal/codec/encode_embedding.go:53-74 | the inputs are kept; without TEI embedding metadata nothing changes; otherwise each of the five knobs the metadata sets replaces the built one |
| TeiCodec.EncodeEmbedding | provider/tei/internal/codec/encode_embedding.go:12-39 | the parameters carry the values and the metadata knobs; the options are the header expansion then the key and base-URL options; no warnings |
| TeiCodec.DecodeEmbedding | provider/tei/internal/codec/decode_embedding.go:10-34 | a nil response is the empty-response-body error "response from TEI embeddings API is nil"; otherwise the vectors are copied unchanged, with no usage |
| TeiCodec.ApplySparseProviderMetadata | provider/tei/internal/codec/encode_sparse_embedding.go:40-55 | the inputs are kept; each of the three knobs the sparse metadata sets replaces the built one |
| TeiCodec.EncodeSparseEmbedding | provider/tei/internal/codec/encode_sparse_embedding.go:10-37 | the parameters carry the values and the metadata knobs; the options are the header expansion then the key and base-URL options |
| TeiCodec.DecodeSparseEmbedding | provider/tei/internal/codec/decode_sparse_embedding.go:10-33 | a nil response is the empty-response-body error; otherwise the sparse maps are kept in order |
| TeiCodec.ApplyRankProviderMetadata | provider/tei/internal/codec/encode_ranking.go:41-59 | query and texts are kept; each of the four knobs the rank metadata sets replaces the built one |
| TeiCodec.EncodeRank | provider/tei/internal/codec/encode_ranking.go:10-38 | the request carries the query, the texts and the metadata knobs; the options are the header expansion then the key and base-URL options |
| TeiCodec.AsScored | provider/tei/internal/codec/decode_ranking.go:21-23 | one (index, score) pair per result, in response order |
| TeiCodec.DecodeRank | provider/tei/internal/codec/decode_ranking.go:10-46 | a nil response is the empty-response-body error; otherwise there are max-index + 1 scores (none when no index is non-negative); every non-negative index is in range; each position holds the last score reported for it, or 0 |
| TeiInferenceCodec.ApplyProviderMetadata | provider/textembeddinginference/internal/codec/encode_embedding.go:45-57 | the inputs are kept; only Normalize and Truncate are taken from the metadata, each when it sets it |
| TeiInferenceCodec.EncodeEmbedding | provider/textembeddinginference/internal/codec/encode_embedding.go:12-31 | the values become a string-list input; Normalize and Truncate come from the metadata or are absent; the options are the header expansion only; no warnings |
| TeiInferenceCodec.DecodeEmbedding | provider/textembeddinginference/internal/codec/decode_embedding.go:12-38 | a nil response is the empty-response-body error; otherwise the vectors unchanged, no usage, and a raw response with an empty header table |
| TeiInferenceCodec.ApplySparseProviderMetadata | provider/textembeddinginference/internal/codec/encode_sparse_embedding.go:32-41 | the inputs are kept; only Truncate is taken from the metadata |
| TeiInferenceCodec.EncodeSparseEmbedding | provider/textembeddinginference/internal/codec/encode_sparse_embedding.go:10-29 | the values become a string-list input; Truncate comes from the metadata or is absent; the options are the header expansion only |
| TeiInferenceCodec.SparseTableKeys | provider/textembeddinginference/internal/codec/decode_sparse_embedding.go:25-30 | a key is in the sparse map exactly when it is the decimal form of some entry's index |
| TeiInferenceCodec.SparseTableLastWins | provider/textembeddinginference/internal/codec/decode_sparse_embedding.go:26-30 | the last entry with a given index decides the value under that index's key |
| TeiInferenceCodec.DecodeSparseList | provider/textembeddinginference/internal/codec/decode_sparse_embedding.go:25-31 | the loop builds the map from decimal index to value, later entries overwriting earlier ones |
| TeiInferenceCodec.DecodeSparseEmbedding | provider/textembeddinginference/internal/codec/decode_sparse_embedding.go:13-45 | a nil response is the empty-response-body error; otherwise one map per input, in order, with no usage and an empty raw response |
| TeiInferenceCodec.ApplyRankProviderMetadata | provider/textembeddinginference/internal/codec/encode_ranking.go:33-51 | query and texts are kept; each of the four knobs the metadata sets replaces the built one |
| TeiInferenceCodec.EncodeRank | provider/textembeddinginference/internal/codec/encode_ranking.go:10-30 | the request carries query, texts and the metadata knobs; the options are the header expansion only |
| JinaCodec.GivenTask | provider/jina/internal/codec/encode_embedding.go:79-81 | a task counts exactly when it is set and non-empty, and is then taken as it is |
| JinaCodec.ApplyProviderMetadata | provider/jina/internal/codec/encode_embedding.go:75-84 | model and input are kept; the task is replaced only by a set, non-empty task from the Jina text metadata |
| JinaCodec.EncodeEmbedding | provider/jina/internal/codec/encode_embedding.go:41-61 | the parameters carry the model id, the values and the metadata task; the options are the header expansion only; no warnings |
| JinaCodec.AsJinaInput | provider/jina/internal/codec/encode_embedding.go:25 | a unified multimodal input becomes the client input with the same text and image |
| JinaCodec.MapInputs | provider/jina/internal/codec/encode_embedding.go:23-26 | one client input per unified input, same position, same text and image |
| JinaCodec.ApplyProviderMultimodalMetadata | provider/jina/internal/codec/encode_embedding.go:87-96 | model and inputs are kept; the task is replaced only by a set, non-empty task from the multimodal metadata |
| JinaCodec.EncodeMultimodalEmbedding | provider/jina/internal/codec/encode_embedding.go:12-38 | the parameters carry the model id, the mapped inputs and the metadata task; the options are the header expansion only; no warnings |
| JinaCodec.ThreeHeaderValues | provider/jina/internal/codec/encode_embedding_test.go:44-54 | a table with one value under one name and two under another expands to three options |
| JinaCodec.DecodeEmbedding | provider/jina/internal/codec/decode_embedding.go:11-35 | a nil response is "response from Jina embeddings API is nil"; otherwise the vectors copied, the prompt and total token counts, and an empty raw response |
| JinaCodec.SegmentBody | provider/jina/internal/codec/encode_segmenting.go:34-35 | the body holds the text and asks for chunks, and nothing else |
| JinaCodec.SegmentTrailer | provider/jina/internal/codec/encode_segmenting.go:22-32 | a key option exactly when the key is non-empty, a base-URL option exactly when the base URL is non-empty, and the raw flag exactly when it is set |
| JinaCodec.EncodeSegment | provider/jina/internal/codec/encode_segmenting.go:12-38 | an empty text is rejected with "jina/segment: content is empty"; otherwise the chunking body, with the header expansion then the trailer |
| JinaCodec.EncodeSegmentScoped | provider/jina/internal/codec/segmenting.go:13-33 | the segmenting-options variant: an empty text is rejected; otherwise the same body, with the header options then a base-URL option when one is set |
| JinaCodec.DecodeSegment | provider/jina/internal/codec/encode_segmenting.go:41-55 | a nil response is "jina/segment: response is nil"; otherwise one segment per chunk, in order |
| ChonkieCodec.ChonkieTrailer | provider/chonkie/internal/codec/encode_segmenting.go:23-33 | a key option exactly when the key is non-empty; a base-URL option exactly when the base URL is set (even to ""); the raw flag exactly when set |
| ChonkieCodec.EncodeSegment | provider/chonkie/internal/codec/encode_segmenting.go:13-39 | an empty text is rejected with "chonkie/segment: content is empty"; otherwise the content with chunks requested, with the header expansion then the trailer |
| ChonkieCodec.EncodeSegmentBatch | provider/chonkie/internal/codec/encode_segmenting.go:43-67 | an empty list is rejected with "chonkie/segment: texts cannot be empty"; otherwise all texts in one body with chunks requested, and the same options |
| ChonkieCodec.DecodeSegment | provider/chonkie/internal/codec/encode_segmenting.go:70-84 | a nil response is "chonkie/segment: response is nil"; otherwise one "c<i>" segment per chunk, in order |
| ChonkieCodec.DecodeSegmentBatch | provider/chonkie/internal/codec/encode_segmenting.go:88-101 | an empty batch is "chonkie/segment: batch response is nil"; otherwise one segment list per response, each the decoding of that response |
| OpenAICodec.EncodeEmbedding | provider/openai/internal/codec/encode_embedding.go:12-42 | the options are folded first; the parameters are the model id, the values and the float encoding; the request options are the header expansion then a base-URL option when set; no warnings |
| OpenAICodec.DecodeEmbedding | provider/openai/internal/codec/decode_embedding.go:11-32 | a nil response is the empty-response-body error "openai embeddings"; otherwise the vectors copied, the prompt tokens as the token count, and an empty raw response |
| CliniaCodec.EncodeEmbedding | provider/clinia/internal/codec/embedding.go:19-36 | an empty value list is "clinia/embed: values cannot be empty", checked first; a blank (all-whitespace) model name is "clinia/embed: model name is required"; otherwise name, version and texts are carried unchanged |
| CliniaCodec.DecodeEmbedding | provider/clinia/internal/codec/embedding.go:39-54 | a nil response is "clinia/embed: response is nil"; otherwise one vector per response vector, same length and order, every element widened from float32 to float64; usage and raw response unset |
| CliniaCodec.EncodeRank | provider/clinia/internal/codec/ranking.go:18-36 | an exactly-empty query is "clinia/rank: query cannot be empty", checked before an empty text list ("clinia/rank: texts cannot be empty"); otherwise query and texts unchanged beside the model name and version |
| CliniaCodec.DecodeRank | provider/clinia/internal/codec/ranking.go:39-53 | a nil response is "clinia/rank: response is nil"; otherwise every score widened, in order, and the response id as the request id |
| CliniaCodec.InjectedRequester | provider/clinia/internal/codec/metadata.go:15-17 | the requester is found exactly when Clinia metadata is stored under "clinia" and holds a non-nil requester, and it is that requester |
| CliniaCodec.EncodeChunk | provider/clinia/internal/codec/chunking.go:18-32 | an empty text list is "clinia/chunk: texts cannot be empty"; otherwise the request holds the texts and the requester is the one injected through metadata, if any |
| CliniaCodec.AsChunk | provider/clinia/internal/codec/chunking.go:44-50 | all five chunk fields (id, text, start, end, token count) are copied |
| CliniaCodec.ChunkList | provider/clinia/internal/codec/chunking.go:42-51 | the inner loop fills a pre-sized list: one chunk per wire chunk, at the same position, each a field copy |
| CliniaCodec.DecodeChunk | provider/clinia/internal/codec/chunking.go:35-59 | a nil response is "clinia/chunk: response is nil"; otherwise both list levels keep their lengths, every chunk is copied in place, and the response id is the request id |
| CliniaCodec.EncodeSegment | provider/clinia/internal/codec/segmenting.go:16-27 | an empty text list is "clinia/segment: texts cannot be empty"; otherwise the request is exactly the texts |
| CliniaCodec.EncodeSegmentIgnoresOptions | provider/clinia/internal/codec/segmenting.go:16-27 | the call options never influence the segment request |
| CliniaCodec.AsSegment | provider/clinia/internal/codec/segmenting.go:39-45 | all five segment fields are copied from the wire chunk |
| CliniaCodec.SegmentList | provider/clinia/internal/codec/segmenting.go:37-46 | one segment per wire chunk, at the same position |
| CliniaCodec.DecodeSegment | provider/clinia/internal/codec/segmenting.go:30-51 | a nil response is "clinia/segment: response is nil"; otherwise groups and segments keep their shape, every field copied, and the response id is kept |
| CliniaCodec.EncodeSparseEmbedding | provider/clinia/internal/codec/sparse_embedding.go:18-31 | an empty text list is "clinia/sparse: texts cannot be empty"; otherwise name, version and texts unchanged and the requester injected through metadata, if any |
| CliniaCodec.WidenedMap | provider/clinia/internal/codec/sparse_embedding.go:39-42 | the widened table has exactly the keys of the original, each weight widened |
| CliniaCodec.WidenMap | provider/clinia/internal/codec/sparse_embedding.go:39-42 | visiting the keys in any order fills the table with every key widened once, so map iteration order does not matter |
| CliniaCodec.DecodeSparseEmbedding | provider/clinia/internal/codec/sparse_embedding.go:33-46 | a nil response is "clinia/sparse: response is nil"; otherwise one widened table per response table, at the same position, and the response id kept |
| CliniaClient.ClientOptionsWith | provider/clinia/provider_config.go:17-21 | the copy carries the given requester, and resetting its requester gives back the stored options, so nothing else differs and the stored options are untouched |
| CliniaClient.AfterClose | provider/triton/ranking.go:60-64 | the close error becomes the call's error only when the call had none; an earlier error always wins |
| Validators.FirstEmpty | provider/tei/client/text_ranking.go:22-26 | the scan reports the first index holding an empty string, and reports none exactly when no string is empty |
| Validators.FirstEmptyAtUnique | provider/tei/client/text_ranking.go:22-26 | at most one index can be the first empty one, so the reported index is well defined |
| Validators.ValidateRank | provider/tei/client/text_ranking.go:15-35 | passes exactly when the query is non-empty, the texts are non-empty and contain no empty string, and a given truncation direction is "Left" or "Right"; otherwise the first failing check names the error, the empty text's index included |
| Validators.Rank | provider/tei/client/text_ranking.go:39-50 | an invalid body fails and nothing is sent; a valid one is sent once, to "rerank", with the service's stored options followed by the call's own, so per-call options are applied last, and its outcome returned as is |
| Validators.Rerank | provider/textembeddinginference/client/text_reranking.go:40-51 | the same validation as the TEI ranking service; an invalid body sends nothing; a valid one is sent once, to the base path, with the service's stored options followed by the call's own, so per-call options are applied last, and its outcome returned as is |
| Validators.CallHeaderOverridesStored | provider/tei/client/text_ranking.go:46 | because the call's options follow the stored ones in the executed list, a header set by the call replaces whatever the stored options left under that name |
| Validators.ValidateInputs | provider/textembeddinginference/client/text_embedding.go:15-40 | passes exactly for a non-empty string or a non-empty list without an empty string; nil, the empty string, the empty list, the first empty element (by index) and any other type each have their own error |
| Validators.NewEmbedding | provider/textembeddinginference/client/text_embedding.go:44-52 | invalid inputs fail and nothing is sent; valid ones are sent once, to "embed", with the service's stored options followed by the call's own, so per-call options are applied last, and the outcome returned as is |
| Validators.NewSparse | provider/textembeddinginference/client/sparse_embedding.go:44-52 | the same input validation; an invalid body sends nothing; a valid one is sent once, to the base path, with the service's stored options followed by the call's own, so per-call options are applied last |
| Validators.ValidateTextParams | provider/jina/client/text_embedding.go:17-30 | passes exactly when the model is named and the input is non-empty without an empty string; the model check comes first, then the list, then the first empty element by index |
| Validators.NewJinaEmbedding | provider/jina/client/text_embedding.go:33-47 | invalid params fail and nothing is sent; valid ones go once to "embeddings", with the service's stored options followed by the call's own, so per-call options are applied last; a transport error is wrapped as "jina embedding new" and a success returned as is |
| Validators.ValidateItem | provider/chonkie/client/multimodal_embedding.go:39-50 | an item passes exactly when one of text and image is present and non-empty; both present and neither present have distinct errors |
| Validators.ValidateMultimodal | provider/chonkie/client/multimodal_embedding.go:24-37 | passes exactly when the model is named, the list is non-empty and every item passes; otherwise the model error, the empty-list error, or the first failing item's error tagged with its index |
| Validators.NewJinaMultiModal | provider/jina/client/multimodal_embedding.go:54-66 | items are validated as for chonkie; an invalid body sends nothing; a valid one goes once to "embeddings", with the service's stored options followed by the call's own, so per-call options are applied last, and the outcome is returned unwrapped |
| Validators.NewChonkieMultiModal | provider/chonkie/client/multimodal_embedding.go:53-68 | invalid params fail and nothing is sent; a valid body goes once to "embeddings", with the service's stored options followed by the call's own, so per-call options are applied last; a transport error is wrapped as "failed to create multi-modal embedding" |
| ModelId.ValidateNameVersion | provider/triton/model_util.go:34-44 | a blank name is "clinia/<component>: model name is required", checked before a blank version; otherwise both are returned trimmed, hence both non-empty |
| ModelId.SplitModelID | provider/triton/model_util.go:11-30 | a blank id is the "model id is required" error; a trimmed id without a colon is the "model version is required in id" error; every success has a non-empty name and version |
| ModelId.SplitModelIDSuccess | provider/triton/model_util.go:17-29 | every success comes from splitting the trimmed id at its first colon, the name being the trimmed part before it and the version the trimmed rest |
| ModelId.SplitModelIDViaValidate | provider/triton/model_util.go:17-29 | once the id is split at its first colon, splitModelID agrees with validateNameVersion on the two halves (same errors, same trimmed results) |
| ModelId.SplitModelIDKeepsLaterColons | provider/triton/model_util.go:17-29 | only the first colon splits: for every non-empty unpadded colon-free name and non-empty unpadded version, "name:version" parses to that name and the whole version, its colons included |
| ModelId.SplitAtFirstColon | provider/triton/model_util.go:17-23 | such an id is handed to the name/version check as the part before the first colon and everything after it |
| ModelId.ValidateKeepsColons | provider/triton/model_util.go:34-44 | non-empty unpadded parts are accepted unchanged, a version holding colons included |
| ModelId.SplitModelIdentifier | provider/clinia/embedding.go:80-100 | a blank id gives an empty name and the default version; an id without a colon is the trimmed id with the default version; a non-blank id always has a non-empty name, and a non-empty default guarantees a non-empty version |
| ModelId.SplitModelIdentifierPieces | provider/clinia/embedding.go:86-96 | for a non-empty id that neither starts nor ends with white space and has at least two colon-separated pieces, the name is the first piece trimmed (the id when that is blank) and the version the second piece trimmed (the default when that is blank) |
| ModelId.TwoColonSplit | provider/clinia/embedding.go:86 | "name:version:rest" with colon-free name and version splits into at least two pieces, the first two being the name and the version |
| ModelId.TwoColonUnpadded | provider/clinia/embedding.go:81 | "name:version:rest" is its own trim when the name is non-empty and unpadded and the rest unpadded |
| ModelId.SplitModelIdentifierDropsLaterPieces | provider/clinia/embedding.go:86-96 | for every unpadded colon-free name and version and every unpadded rest, "name:version:rest" gives that name and version: pieces after the second are dropped |
| ModelId.LeadingColonSplit | provider/clinia/embedding.go:86 | a leading colon gives an empty first piece: ":version" splits into "" and the version |
| ModelId.SplitModelIdentifierNameFallback | provider/clinia/embedding.go:90-92 | a blank name piece falls back to the whole trimmed id: ":version" is named ":version", with that version |
| ModelId.TrailingColonSplit | provider/clinia/embedding.go:86 | a trailing colon gives an empty last piece: "name:" splits into the name and "" |
| ModelId.SplitModelIdentifierVersionFallback | provider/clinia/embedding.go:93-95 | a blank version piece falls back to the default: "name:" gives that name and the default version |
| Triton.ApplyOption | provider/triton/provider.go:48-62 | an option closure writes exactly its own field of the option record (WithClientOptions a copy with the requester cleared, the factory options their factory) and leaves every other field alone |
| Triton.LastOptionWins | provider/triton/provider.go:66-69 | applied in order, the last option writing a field decides it |
| Triton.UntouchedSlot | provider/triton/provider.go:66-69 | a field no option writes keeps its initial value |
| Triton.DefaultNameKept | provider/triton/provider.go:66 | without WithName the provider is named "clinia" |
| Triton.ConfiguredOptionsHaveNoRequester | provider/triton/provider.go:55-62 | whatever options were applied, stored client options never carry a requester |
| Triton.OrLibrary | provider/triton/provider.go:86-97 | a missing factory becomes the library's constructor and an injected one is kept |
| Triton.NewProvider | provider/triton/provider.go:65-100 | never fails; the name is the folded one; the client options are the given ones with the requester cleared, or zero when none were given; each of the four factories is the injected one or the library's |
| Triton.LanguageModel | provider/triton/provider.go:113-115 | always the unsupported-functionality error ("language_model", "Clinia provider does not expose a language model") |
| Triton.MultimodalEmbeddingModel | provider/triton/provider.go:118-120 | always the unsupported-functionality error ("multimodal_embeddings", "Clinia provider does not support multimodal embeddings") |
| Triton.NewRankingModel | provider/triton/ranking.go:20-36 | a model id that fails splitModelID (with the provider name as component) is that error; otherwise the model keeps the id as given, the parsed name and version, the provider's client options and ranker factory only, and is named "<provider>.ranker" |
| Triton.DoRank | provider/triton/ranking.go:46-85 | an encoding error comes before any requester; a failed or nil requester comes before any ranker; once a requester exists it is closed last on every path; a missing or nil-returning factory, a rank error or a decode error gives the zero response and wins over the close error, which surfaces only after a successful decode; the ranker gets a copy of the client options bound to the requester |
| CliniaAdapter.ApplyOption | provider/clinia/provider.go:29-49 | an option closure writes exactly its own field of the option record (WithClientOptions the copy it captured, requester included) and leaves the others alone |
| CliniaAdapter.LastOptionWins | provider/clinia/provider.go:54-57 | applied in order, the last option writing a field decides it |
| CliniaAdapter.UntouchedSlot | provider/clinia/provider.go:54-57 | a field no option writes keeps its initial value |
| CliniaAdapter.DefaultNameKept | provider/clinia/provider.go:54 | without WithName the provider is named "clinia" |
| CliniaAdapter.BoundRequester | provider/clinia/provider.go:59-66 | the requester inside the given client options wins; only when there is none does the explicit one apply |
| CliniaAdapter.NewProvider | provider/clinia/provider.go:53-82 | with no requester from either source, "clinia/provider: requester is required" and no provider; otherwise the folded name, the client options bound to that requester, and an embedder, ranker and chunker each built from exactly those options |
| CliniaAdapter.ClientOptionsRequesterWins | provider/clinia/provider.go:59-66 | a requester carried by the last WithClientOptions is the one bound, wherever any WithRequester stands |
| CliniaAdapter.ExplicitRequesterUsed | provider/clinia/provider.go:59-66 | without WithClientOptions the bound requester is the last WithRequester's, and there is none without one |
| CliniaAdapter.BuildModelIDParses | provider/clinia/chunking.go:39 | an id built from a validated name (no colon) and version parses back, through splitModelID, into that name and version |
| CliniaAdapter.NewEmbeddingModel | provider/clinia/embedding.go:23-43 | a provider without an embedder is "clinia/embed: provider embedder is nil"; otherwise the id as given, the lenient parse of it with default version "1", and only the embedder under "<provider>.embedding" |
| CliniaAdapter.EmbeddingVersionNonEmpty | provider/clinia/embedding.go:24-30 | an embedding model always calls with a non-empty version |
| CliniaAdapter.DoEmbed | provider/clinia/embedding.go:66-78 | an encoding error ends the call before the embedder is used; otherwise the embedder is called once with the encoded name, version and texts, its error returned as is, and its reply decoded |
| CliniaAdapter.NewChunkingModel | provider/clinia/chunking.go:23-47 | a missing chunker comes first ("clinia/chunk: provider chunker is nil"), then the name and version checks; a model carries the trimmed name and version, the id "name:version" and only the chunker under "<provider>.chunker" |
| CliniaAdapter.Chunk | provider/clinia/chunking.go:57-73 | the texts are encoded before the chunker is looked at; a missing chunker is "clinia/chunk: chunker is nil" without a call; otherwise one call, its error returned or its reply decoded |
| CliniaAdapter.NewRankingModel | provider/clinia/ranking.go:21-45 | a missing ranker comes first ("clinia/rank: provider ranker is nil"), then the name and version checks; a model carries the trimmed parts, the id "name:version" and only the ranker under "<provider>.ranker" |
| CliniaAdapter.Rank | provider/clinia/ranking.go:55-71 | query and texts are encoded and validated before the ranker is looked at; a missing ranker is "clinia/rank: ranker is nil" without a call; otherwise one call, its error returned or its reply decoded |
| CliniaAdapter.NewSparseEmbeddingModel | provider/clinia/sparse_embedding.go:22-46 | a missing sparse embedder comes first, then the name and version checks; the model calls with the trimmed parts but its id is built from the arguments as given |
| CliniaAdapter.SparseIdKeepsPadding | provider/clinia/sparse_embedding.go:38 | for any unpadded name and version, the name " name " is accepted: the id keeps the padding (" name :version") and the model calls with the bare name and the version |
| CliniaAdapter.PaddedNameValidates | provider/clinia/sparse_embedding.go:22-46 | a name with one space on each side and an unpadded version validate to the bare name and that version |
| CliniaAdapter.SparseEmbed | provider/clinia/sparse_embedding.go:53-66 | the texts are encoded before the sparse embedder is looked at; a missing one is "clinia/sparse: sparse embedder is nil" without a call; otherwise one call with the encoded name and version, its error returned or its reply decoded |
| CliniaAdapter.Segmenter | provider/clinia/segmenting.go:22-38 | a model id that fails splitModelID (component: the provider name) is that error; otherwise the id as given, the parsed parts, the provider's client options and chunker factory, under "<provider>.segmenter" |
| CliniaAdapter.DoSegment | provider/clinia/segmenting.go:45-77 | an encoding error comes before any requester; a failed or nil requester before any chunker; once a requester exists it is closed last on every path; factory, chunker and decode failures give the zero response and win over the close error, which surfaces only after a successful decode |
| HttpProviders.DefaultName | provider/chonkie/provider.go:58-60 | the fallback name is never empty ("chonkie", "text-embedding-inference", "jina", "openai") |
| HttpProviders.Initial | provider/chonkie/provider.go:49-52 | a provider starts with a fresh default client, no name, no key and, in the packages that have one, the no-op instrumenter |
| HttpProviders.ApplyOption | provider/chonkie/provider.go:27-46 | an option writes exactly its own field and leaves the others alone; a nil instrumenter is stored as the no-op one |
| HttpProviders.Built | provider/chonkie/provider.go:48-63 | the provider after every option: client, key and instrumenter as the options left them, the name as left unless empty, and then the package default, so never empty |
| HttpProviders.LastOptionWins | provider/chonkie/provider.go:54-56 | applied in order, the last option writing a field decides it |
| HttpProviders.UntouchedSlot | provider/chonkie/provider.go:54-56 | a field no option writes keeps its initial value |
| HttpProviders.LastNameWins | provider/chonkie/provider.go:54-60 | the last non-empty WithName names the provider |
| HttpProviders.DefaultNameWithoutWithName | provider/chonkie/provider.go:58-60 | without any WithName the provider carries the package's default name |
| HttpProviders.InstrumenterPresence | provider/chonkie/provider.go:35-52 | a package with an instrumenter field always holds a non-nil one; a package without the field never gains one |
| HttpProviders.NilInstrumenterIsNop | provider/chonkie/provider.go:35-42 | a nil WithInstrumenter, when it is the last instrumenter option, leaves the no-op instrumenter |
| HttpProviders.Provider.Apply | provider/chonkie/provider.go:27-46 | running one option closure on the provider object changes its fields exactly as the option's value-level meaning says |
| HttpProviders.Provider.constructor | provider/chonkie/provider.go:48-63 | the object built by NewProvider holds exactly the fields the options and the default name give |
| HttpProviders.Provider.UnsupportedModel | provider/chonkie/provider.go:65-88 | a model kind the package does not offer is always an unsupported-functionality error carrying the provider's name and the method's name (openai: "MultiModalEmbeddingModel") |
| JinaSegmenting.NewSegmentingModel | provider/jina/segmenting.go:20-31 | always a model, named "<provider>.segmenting", keeping the id as given and sharing the provider's client and key |
| JinaSegmenting.DoSegment | provider/jina/segmenting.go:38-73 | one request per text in input order, each carrying that text and the full option list; success exactly when every text was sent and every reply decodable, and then group k decodes reply k; otherwise the zero response, the call stopping at an empty text before sending it or at the last reply received |
| JinaSegmenting.SentInOrderExtend | provider/jina/segmenting.go:57-62 | sending one more request for the next text, carrying that text and the call's option list, keeps the sent requests in input order |
| JinaSegmenting.AllDeliveredExtend | provider/jina/segmenting.go:62-65 | one more request that the client answered keeps every sent request answered |
| TeiInferenceRanking.NewRankingModel | provider/textembeddinginference/ranking.go:27-39 | always a model, named "<provider>.ranking", keeping the id and sharing the provider's client and key |
| TeiInferenceRanking.RankOptionsMetadata | provider/textembeddinginference/ranking.go:78-87 | the ranking options are found exactly when the value stored under "tei" is a RankOptions, and are that value |
| TeiInferenceRanking.AsScored | provider/textembeddinginference/ranking.go:97-101 | one (index, score) pair per result, in response order |
| TeiInferenceRanking.DoRank | provider/textembeddinginference/ranking.go:65-107 | the request carries query and texts unchanged and the four knobs from the "tei" options (all absent without them); a transport error gives the zero response; otherwise one score per text, the last reported for its index, 0 when none, out-of-range indices dropped, and no request id |
| TeiInferenceRanking.ReportedScoreKept | provider/textembeddinginference/ranking.go:97-101 | an in-range index that no later result repeats keeps its reported score |
| TeiInferenceRanking.UnreportedScoreZero | provider/textembeddinginference/ranking.go:96 | a position no result reports stays 0 |

## Left out

- Network I/O: the HTTP round trip, JSON marshalling and decoding, `url.Parse` and `URL.ResolveReference` (section 5.2 of RFC 3986) are function parameters. So are the gRPC requester constructor (provider/clinia/requester_util.go) and the model clients of the Clinia library. The model fixes only which calls are made, in what order, and what is done with their answers.
- The Triton wire codec is not part of this model: `Triton.DoRank` takes its encoder and decoder as parameters.
- Context cancellation and deadlines: every `context.Context` is dropped.
- Tracing: instrumentation spans (`Start`, `EndSpan`) are dropped. A provider's instrumenter is kept only as a value, so that the defaulting of a nil instrumenter can be stated.
- Environment reading and the client constructors that do it (`NewClient`, `DefaultClientOptions`) are replaced by an opaque default client.
- Floating point: vector entries and scores are uninterpreted bit patterns. The float32-to-float64 widening in the Clinia decoders is a function parameter.
- Thin wrappers with no logic of their own, each a codec call, one client call and a span: the TEI, Jina, text-embeddings-inference, Chonkie and OpenAI embedding/ranking/segmenting models other than the Jina segmenter and the text-embeddings-inference ranker. The language models are left out as well.
- Trivial accessors (`SpecificationVersion`, `ProviderName`, `ModelID`, `SupportsParallelCalls`, `MaxDocumentsPerCall`, `Name`, `ClientOptions`, `Embedder`, `Ranker`, `Chunker`) are left out.
- The per-call requester options of provider/clinia/requester_options.go are left out. The model reads requesters from the Clinia metadata entry directly.
- provider/textembeddinginference/provider.go is not part of this model. The text-embeddings-inference ranker is built from a provider name, client and key given as arguments.
- The text-embeddings-inference client's own request configuration is not part of this model. Its requests are taken to go through the TEI request configuration, whose option set is the same.
- `GetSparseTextEmbeddingMetadata` and `GetRankingMetadata` of the text-embeddings-inference codec are called but not defined in the source. They are modelled like `GetTextEmbeddingMetadata`: typed getters under "text-embedding-inference".
- `buildModelID` is called but not defined in the source. It is modelled as the name, a colon and the version.
- Headers.Set: `http.Header` key canonicalisation is not modelled, and names are compared exactly. The same holds for Headers.Add, Headers.Del and Headers.Get.
- HeaderOptions.ApplyHeaders: states only the option count and each name's value order, not the order across names, because Go map iteration order is unspecified.
- TeiRequestConfig.RequestConfig.Apply: requires that no option sets the raw-base-URL flag, because the TEI option package has no such option. The same precondition is on TeiRequestConfig.RequestConfig.constructor and TeiRequestConfig.NewRequestConfig.
- CliniaAdapter.DoEmbed: requires a model that holds an embedder. Its constructor never builds one without, and the source dereferences it unchecked.
- CliniaAdapter.NewProvider: the sparse-embedding constructor reads a sparse-embedder field that the `Provider` struct at provider/clinia/provider.go:12-18 does not declare and `NewProvider` never sets, so on a provider built here it always takes its nil branch. The segmenting constructor has no nil branch: it copies a chunker-factory field that `NewProvider` never sets, so the model it builds carries no factory, and `DoSegment` fails with "chunker factory is nil" only after the requester was made and before it is closed (provider/clinia/segmenting.go:64-66). The model keeps both fields absent.
- CliniaAdapter.ProviderConfig: provider/clinia/provider_config.go:7-15 declares the factories `newEmbedder`, `newRanker`, `newChunker` and `newSparse`, but the models read and fill `embedder`, `ranker`, `chunker` and `sparse` fields it does not declare. The model follows the models' reads and keeps only the `newChunker` factory, the one factory any model reads.
- CliniaAdapter.Rank: the source calls `codec.EncodeRank(query, texts, opts)` (provider/clinia/ranking.go:56) against a codec that also takes the model name and version first (provider/clinia/internal/codec/ranking.go:18). The model passes the model's name and version.
- Slice aliasing in the client service methods: `append(r.Options[:], opts...)` may write the call's options into the service's own backing array when it has spare capacity. The model builds a fresh list each call, so it does not capture one call's options being seen by a concurrent call.
- CallOptions.BuildEmbeddingConfig: `WithEmbeddingEmbeddingOptions` copies a record that still points at the caller's provider-metadata bag (embedding_options.go:55-58), and a later `WithEmbeddingProviderMetadata` writes into that shared bag in place (embedding_options.go:29-36). The model treats the bag as a value, so it does not capture the caller's own bag being changed.
- CliniaAdapter.Chunk: the source calls `EncodeChunk` with fewer arguments than the codec declares. The model calls the codec as declared.
- CliniaAdapter.DoSegment: the source passes its segmenting options to a codec that takes embedding options. The model converts them field by field with `AsCallOptions`.
- TeiInferenceRanking.DoRank: a client that returns neither a response nor an error would make the source dereference nil. The model's client always returns one of the two.
- JinaSegmenting.DoSegment: the tracing span around the loop, and the recording of the error on it, are dropped.
