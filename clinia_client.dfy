// What the Triton and Clinia adapters see of the Clinia models client
// library: the client options a model client is built from, the model
// clients themselves as opaque handles, and the two pieces of logic the
// adapters share: binding a requester into a copy of the stored options,
// and letting a requester's close error surface only when the call had
// not already failed.

module CliniaClient {

  import opened Common
  import opened CliniaWire

  /**
   * common.ClientOptions: the requester model clients send through, and
   * the library's remaining settings, which this layer only copies.
   */
  datatype ClientOptions = ClientOptions(requester: Option<Requester>, settings: map<string, string>)

  const ZeroClientOptions := ClientOptions(None, map[])

  /** A model client (embedder, ranker, chunker or sparse embedder) the library built. */
  datatype Backend = Backend(id: nat)

  /** A non-nil model-client factory: the library's own constructor, or one a caller injected. */
  datatype Factory = LibraryFactory | InjectedFactory(id: nat)

  /** clientOptionsWith: a copy of the stored options bound to `requester`; the stored value is not touched. */
  function ClientOptionsWith(stored: ClientOptions, requester: Requester): (r: ClientOptions)
    ensures r.requester == Some(requester)
    ensures r.(requester := stored.requester) == stored
  {
    stored.(requester := Some(requester))
  }

  /**
   * The deferred close: its error replaces the call's error only when the
   * call had none; an earlier error always wins.
   */
  function AfterClose(err: Option<Error>, closeErr: Option<Error>): (r: Option<Error>)
    ensures err.Some? ==> r == err
    ensures err.None? ==> r == closeErr
  {
    if err.None? && closeErr.Some? then closeErr else err
  }

  /** The observable steps of a call: requester creation, model-client construction, the remote call and the close. */
  datatype Step = MakeRequester | BuildClient | Invoke | CloseRequester(requester: Requester)
}
