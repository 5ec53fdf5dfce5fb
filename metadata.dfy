// The provider-metadata bag: per-call values keyed by provider name that a
// caller passes through the unified options to one backend. A Go `any`
// value is modelled by `MetaValue`, one variant per Go type some codec
// looks for, and `OtherValue` for every other type. A typed getter is a
// soft miss: a missing bag, a missing key or a value of another type all
// read as no metadata.

module Metadata {

  import opened Common
  import TeiWire
  import TeiInferenceWire
  import JinaWire
  import CliniaWire

  datatype MetaValue =
    | TeiEmbedParams(teiEmbed: TeiWire.EmbedParams)
    | TeiSparseParams(teiSparse: TeiWire.SparseEmbedParams)
    | TeiRankRequest(teiRank: TeiWire.RankRequest)
    | TeiInferenceEmbedRequest(inferenceEmbed: TeiInferenceWire.EmbedRequest)
    | TeiInferenceSparseRequest(inferenceSparse: TeiInferenceWire.EmbedSparseRequest)
    | TeiInferenceRankRequest(inferenceRank: TeiInferenceWire.RankRequest)
    | TeiInferenceRankOptions(rankOptions: TeiInferenceWire.RankOptions)
    | JinaTextParams(jinaText: JinaWire.TextParams)
    | JinaMultimodalParams(jinaMultimodal: JinaWire.MultimodalParams)
    | CliniaMetadata(clinia: CliniaWire.Metadata)
    | OtherValue(typeName: string)

  /** A ProviderMetadata bag; `None` in an options record is a nil bag. */
  type Bag = map<string, MetaValue>

  /** The keys the codecs' metadata getters read. */
  const CliniaKey := "clinia"
  const JinaKey := "jina"
  const ChonkieKey := "chonkie"
  const TeiKey := "text-embedding-inference"
  /** The key the text-embeddings-inference ranking adapter reads. */
  const TeiRankingKey := "tei"

  /** ProviderMetadata.Get: the value stored under `provider`, if there is a bag and an entry. */
  function Lookup(bag: Option<Bag>, provider: string): (v: Option<MetaValue>)
    ensures v.Some? <==> bag.Some? && provider in bag.value
    ensures v.Some? ==> v.value == bag.value[provider]
  {
    if bag.Some? && provider in bag.value then Some(bag.value[provider]) else None
  }

  /** ProviderMetadata.Set on a bag, creating the bag first when there is none. */
  function Store(bag: Option<Bag>, provider: string, v: MetaValue): (r: Bag)
    ensures Lookup(Some(r), provider) == Some(v)
    ensures forall p :: p != provider ==> Lookup(Some(r), p) == Lookup(bag, p)
  {
    (if bag.Some? then bag.value else map[])[provider := v]
  }

  /** A later Set of the same provider replaces the earlier one; a Set of another provider keeps it. */
  lemma StoreThenStore(bag: Option<Bag>, p: string, q: string, v: MetaValue, w: MetaValue)
    ensures Lookup(Some(Store(Some(Store(bag, p, v)), q, w)), p) == if p == q then Some(w) else Some(v)
  {
  }

  /** The TEI embedding parameters stored under "text-embedding-inference", if the value has that type. */
  function TeiEmbedMetadata(bag: Option<Bag>): (r: Option<TeiWire.EmbedParams>)
    ensures r.Some? <==> Lookup(bag, TeiKey).Some? && Lookup(bag, TeiKey).value.TeiEmbedParams?
    ensures r.Some? ==> Lookup(bag, TeiKey) == Some(TeiEmbedParams(r.value))
  {
    var v := Lookup(bag, TeiKey);
    if v.Some? && v.value.TeiEmbedParams? then Some(v.value.teiEmbed) else None
  }

  /** The TEI sparse-embedding parameters stored under "text-embedding-inference". */
  function TeiSparseMetadata(bag: Option<Bag>): (r: Option<TeiWire.SparseEmbedParams>)
    ensures r.Some? <==> Lookup(bag, TeiKey).Some? && Lookup(bag, TeiKey).value.TeiSparseParams?
    ensures r.Some? ==> Lookup(bag, TeiKey) == Some(TeiSparseParams(r.value))
  {
    var v := Lookup(bag, TeiKey);
    if v.Some? && v.value.TeiSparseParams? then Some(v.value.teiSparse) else None
  }

  /** The TEI rank request stored under "text-embedding-inference". */
  function TeiRankMetadata(bag: Option<Bag>): (r: Option<TeiWire.RankRequest>)
    ensures r.Some? <==> Lookup(bag, TeiKey).Some? && Lookup(bag, TeiKey).value.TeiRankRequest?
    ensures r.Some? ==> Lookup(bag, TeiKey) == Some(TeiRankRequest(r.value))
  {
    var v := Lookup(bag, TeiKey);
    if v.Some? && v.value.TeiRankRequest? then Some(v.value.teiRank) else None
  }

  /** The text-embeddings-inference embed request stored under "text-embedding-inference". */
  function TeiInferenceEmbedMetadata(bag: Option<Bag>): (r: Option<TeiInferenceWire.EmbedRequest>)
    ensures r.Some? <==> Lookup(bag, TeiKey).Some? && Lookup(bag, TeiKey).value.TeiInferenceEmbedRequest?
    ensures r.Some? ==> Lookup(bag, TeiKey) == Some(TeiInferenceEmbedRequest(r.value))
  {
    var v := Lookup(bag, TeiKey);
    if v.Some? && v.value.TeiInferenceEmbedRequest? then Some(v.value.inferenceEmbed) else None
  }

  /** The text-embeddings-inference sparse request stored under "text-embedding-inference". */
  function TeiInferenceSparseMetadata(bag: Option<Bag>): (r: Option<TeiInferenceWire.EmbedSparseRequest>)
    ensures r.Some? <==> Lookup(bag, TeiKey).Some? && Lookup(bag, TeiKey).value.TeiInferenceSparseRequest?
    ensures r.Some? ==> Lookup(bag, TeiKey) == Some(TeiInferenceSparseRequest(r.value))
  {
    var v := Lookup(bag, TeiKey);
    if v.Some? && v.value.TeiInferenceSparseRequest? then Some(v.value.inferenceSparse) else None
  }

  /** The text-embeddings-inference rank request stored under "text-embedding-inference". */
  function TeiInferenceRankMetadata(bag: Option<Bag>): (r: Option<TeiInferenceWire.RankRequest>)
    ensures r.Some? <==> Lookup(bag, TeiKey).Some? && Lookup(bag, TeiKey).value.TeiInferenceRankRequest?
    ensures r.Some? ==> Lookup(bag, TeiKey) == Some(TeiInferenceRankRequest(r.value))
  {
    var v := Lookup(bag, TeiKey);
    if v.Some? && v.value.TeiInferenceRankRequest? then Some(v.value.inferenceRank) else None
  }

  /** The Jina text-embedding parameters stored under "jina". */
  function JinaTextMetadata(bag: Option<Bag>): (r: Option<JinaWire.TextParams>)
    ensures r.Some? <==> Lookup(bag, JinaKey).Some? && Lookup(bag, JinaKey).value.JinaTextParams?
    ensures r.Some? ==> Lookup(bag, JinaKey) == Some(JinaTextParams(r.value))
  {
    var v := Lookup(bag, JinaKey);
    if v.Some? && v.value.JinaTextParams? then Some(v.value.jinaText) else None
  }

  /** The Jina multimodal-embedding parameters stored under "jina". */
  function JinaMultimodalMetadata(bag: Option<Bag>): (r: Option<JinaWire.MultimodalParams>)
    ensures r.Some? <==> Lookup(bag, JinaKey).Some? && Lookup(bag, JinaKey).value.JinaMultimodalParams?
    ensures r.Some? ==> Lookup(bag, JinaKey) == Some(JinaMultimodalParams(r.value))
  {
    var v := Lookup(bag, JinaKey);
    if v.Some? && v.value.JinaMultimodalParams? then Some(v.value.jinaMultimodal) else None
  }

  /** The Clinia codec metadata stored under "clinia". */
  function CliniaMeta(bag: Option<Bag>): (r: Option<CliniaWire.Metadata>)
    ensures r.Some? <==> Lookup(bag, CliniaKey).Some? && Lookup(bag, CliniaKey).value.CliniaMetadata?
    ensures r.Some? ==> Lookup(bag, CliniaKey) == Some(CliniaMetadata(r.value))
  {
    var v := Lookup(bag, CliniaKey);
    if v.Some? && v.value.CliniaMetadata? then Some(v.value.clinia) else None
  }

  /** A value of an unexpected type under a provider's key reads as no metadata. */
  lemma WrongTypeIsMiss(bag: Bag, name: string)
    ensures TeiEmbedMetadata(Some(bag[TeiKey := OtherValue(name)])).None?
    ensures TeiRankMetadata(Some(bag[TeiKey := TeiEmbedParams(TeiWire.EmbedParams([], None, None, None, None, None))])).None?
    ensures CliniaMeta(Some(bag[CliniaKey := OtherValue(name)])).None?
  {
  }

  /** One field of a metadata overlay: a field the metadata sets replaces the built one; an unset one keeps it. */
  function Overlay<T>(built: Option<T>, given: Option<T>): (r: Option<T>)
    ensures given.Some? ==> r == given
    ensures given.None? ==> r == built
  {
    if given.Some? then given else built
  }
}
