// The text-embeddings-inference ranking model
// (provider/textembeddinginference/ranking.go): a constructor that never
// fails, and DoRank, which sends query and texts unchanged, takes the four
// ranking knobs from provider metadata under "tei" only when the stored
// value is a RankOptions, and projects the backend's (index, score) pairs
// onto one score per text.

module TeiInferenceRanking {

  import opened Common
  import opened Api
  import opened CallOptions
  import opened Metadata
  import opened Scores
  import opened TeiInferenceWire

  /** The package's HTTP client; the provider that owns it is not part of this model. */
  datatype Client = Client(id: nat)

  datatype RankingModel = RankingModel(modelID: string, providerName: string, client: Client, apiKey: string)

  /** RankingModel: always a model, named "<provider>.ranking", sharing the provider's client and key. */
  function NewRankingModel(name: string, client: Client, apiKey: string, modelID: string): (r: Result<RankingModel>)
    ensures r.Ok?
    ensures r.value.modelID == modelID && r.value.providerName == name + ".ranking"
    ensures r.value.client == client && r.value.apiKey == apiKey
  {
    Ok(RankingModel(modelID, name + ".ranking", client, apiKey))
  }

  /** The ranking options a caller stored under "tei", when the stored value is exactly a RankOptions. */
  function RankOptionsMetadata(bag: Option<Bag>): (r: Option<RankOptions>)
    ensures r.Some? <==> Lookup(bag, TeiRankingKey).Some? && Lookup(bag, TeiRankingKey).value.TeiInferenceRankOptions?
    ensures r.Some? ==> Lookup(bag, TeiRankingKey) == Some(TeiInferenceRankOptions(r.value))
  {
    var v := Lookup(bag, TeiRankingKey);
    if v.Some? && v.value.TeiInferenceRankOptions? then Some(v.value.rankOptions) else None
  }

  /** The (index, score) pairs of a rank response, in response order. */
  function AsScored(rs: seq<RankResult>): (ss: seq<Scored>)
    ensures |ss| == |rs|
    ensures forall i :: 0 <= i < |rs| ==> ss[i] == Scored(rs[i].index, rs[i].score)
  {
    seq(|rs|, i requires 0 <= i < |rs| => Scored(rs[i].index, rs[i].score))
  }

  /**
   * DoRank. `rank` is the Ranking.Rank round trip and `request` the body
   * it was given. The body holds query and texts unchanged; its four knobs
   * are copied from the "tei" RankOptions, absent ones included, and are
   * all absent otherwise. A transport error gives the zero response.
   * Otherwise there is one score per text: score k is the last score the
   * response reports for index k, and 0 when it reports none; reported
   * indices outside the texts are dropped. The request id is empty.
   */
  method DoRank(m: RankingModel, query: string, texts: seq<string>, opts: CallOptions,
                rank: (Client, RankRequest) -> Result<seq<RankResult>>)
    returns (resp: RankingResponse, err: Option<Error>, request: RankRequest)
    ensures request.query == query && request.texts == texts
    ensures RankOptionsMetadata(opts.providerMetadata).None? ==>
      request.rawScores.None? && request.returnText.None? && request.truncate.None? && request.truncationDirection.None?
    ensures RankOptionsMetadata(opts.providerMetadata).Some? ==>
      var o := RankOptionsMetadata(opts.providerMetadata).value;
      && request.rawScores == o.rawScores && request.returnText == o.returnText
      && request.truncate == o.truncate && request.truncationDirection == o.truncationDirection
    ensures rank(m.client, request).Err? ==> resp == ZeroRankingResponse && err == Some(rank(m.client, request).error)
    ensures rank(m.client, request).Ok? ==> err.None? && resp.requestID == "" && |resp.scores| == |texts|
    ensures rank(m.client, request).Ok? ==>
      forall k :: 0 <= k < |texts| ==> resp.scores[k] == LastScoreAt(AsScored(rank(m.client, request).value), k)
  {
    request := RankRequest(query, texts, None, None, None, None);
    if opts.providerMetadata.Some? {
      var stored := Lookup(opts.providerMetadata, TeiRankingKey);
      if stored.Some? && stored.value.TeiInferenceRankOptions? {
        var rankOpts := stored.value.rankOptions;
        request := request.(rawScores := rankOpts.rawScores);
        request := request.(returnText := rankOpts.returnText);
        request := request.(truncate := rankOpts.truncate);
        request := request.(truncationDirection := rankOpts.truncationDirection);
      }
    }
    var results := rank(m.client, request);
    if results.Err? {
      return ZeroRankingResponse, Some(results.error), request;
    }
    var scores := Scatter(|texts|, AsScored(results.value));
    return RankingResponse(scores, ""), None, request;
  }

  /** A reported in-range index that no later result repeats keeps its reported score. */
  lemma ReportedScoreKept(results: seq<RankResult>, n: nat, i: nat)
    requires i < |results| && 0 <= results[i].index < n
    requires forall j :: i < j < |results| ==> results[j].index != results[i].index
    ensures LastScoreAt(AsScored(results), results[i].index) == results[i].score
  {
    LastScoreAtLastWriter(AsScored(results), i);
  }

  /** A position no result reports stays 0. */
  lemma UnreportedScoreZero(results: seq<RankResult>, k: nat)
    requires forall j :: 0 <= j < |results| ==> results[j].index != k
    ensures LastScoreAt(AsScored(results), k) == ZeroFloat64
  {
    LastScoreAtUnnamed(AsScored(results), k);
  }
}
