// The HTTP-backed providers (provider/chonkie, provider/tei, provider/jina,
// provider/openai): a provider object created with a fresh client and,
// where the package has one, a no-op instrumenter; option closures that
// each overwrite one field, applied in order; an empty name replaced by
// the package's default afterwards; and the model kinds the package does
// not offer, which always fail with an unsupported-functionality error.

module HttpProviders {

  import opened Common

  /** The HTTP client a provider holds: the package's freshly made default, or one a caller supplied. */
  datatype Client = DefaultClient | GivenClient(id: nat)

  /** A tracing instrumenter: the no-op one, or one a caller supplied. */
  datatype Instrumenter = NopInstrumenter | GivenInstrumenter(id: nat)

  /** The four provider packages, which differ only in their defaults, their options and their unsupported models. */
  datatype Backend = Chonkie | Tei | Jina | OpenAI

  /** The name a provider falls back to when none (or an empty one) was given. */
  function DefaultName(b: Backend): (n: string)
    ensures n != ""
  {
    match b
      case Chonkie => "chonkie"
      case Tei => "text-embedding-inference"
      case Jina => "jina"
      case OpenAI => "openai"
  }

  /** Whether the package's Provider struct has an instrumenter field (only chonkie and tei do). */
  predicate HasInstrumenter(b: Backend)
  {
    b == Chonkie || b == Tei
  }

  /** WithClient, WithName, WithInstrumenter (nil allowed) and WithAPIKey. */
  datatype ProviderOption =
    | WithClient(client: Client)
    | WithName(name: string)
    | WithInstrumenter(instrumenter: Option<Instrumenter>)
    | WithAPIKey(apiKey: string)

  /** The options a package declares: every package has WithClient and WithName; openai has no key; only chonkie and tei have WithInstrumenter. */
  predicate Offers(b: Backend, o: ProviderOption)
  {
    match o
      case WithClient(_) => true
      case WithName(_) => true
      case WithInstrumenter(_) => HasInstrumenter(b)
      case WithAPIKey(_) => b != OpenAI
  }

  /** A provider's fields as values; `instrumenter` is None for a package without that field. */
  datatype Settings = Settings(client: Client, name: string, apiKey: string, instrumenter: Option<Instrumenter>)

  /** The struct literal NewProvider starts from: a fresh client, no name, no key, the no-op instrumenter where there is one. */
  function Initial(b: Backend): (s: Settings)
    ensures s.client == DefaultClient && s.name == "" && s.apiKey == ""
    ensures s.instrumenter.Some? <==> HasInstrumenter(b)
    ensures HasInstrumenter(b) ==> s.instrumenter == Some(NopInstrumenter)
  {
    Settings(DefaultClient, "", "", if HasInstrumenter(b) then Some(NopInstrumenter) else None)
  }

  /** The field an option writes. */
  datatype Slot = ClientSlot | NameSlot | APIKeySlot | InstrumenterSlot

  datatype SlotValue = ClientValue(client: Client) | TextValue(text: string) | InstrumenterValue(instrumenter: Option<Instrumenter>)

  function SlotOf(o: ProviderOption): Slot
  {
    match o
      case WithClient(_) => ClientSlot
      case WithName(_) => NameSlot
      case WithInstrumenter(_) => InstrumenterSlot
      case WithAPIKey(_) => APIKeySlot
  }

  function SlotValueOf(s: Settings, slot: Slot): SlotValue
  {
    match slot
      case ClientSlot => ClientValue(s.client)
      case NameSlot => TextValue(s.name)
      case APIKeySlot => TextValue(s.apiKey)
      case InstrumenterSlot => InstrumenterValue(s.instrumenter)
  }

  /** What an option stores, whatever was there before; a nil instrumenter is stored as the no-op one. */
  function Written(o: ProviderOption): SlotValue
  {
    match o
      case WithClient(c) => ClientValue(c)
      case WithName(n) => TextValue(n)
      case WithInstrumenter(i) => InstrumenterValue(Some(if i.None? then NopInstrumenter else i.value))
      case WithAPIKey(k) => TextValue(k)
  }

  /** One option closure: its own field overwritten, every other field kept. */
  function ApplyOption(s: Settings, o: ProviderOption): (r: Settings)
    ensures SlotValueOf(r, SlotOf(o)) == Written(o)
    ensures forall slot :: slot != SlotOf(o) ==> SlotValueOf(r, slot) == SlotValueOf(s, slot)
  {
    match o
      case WithClient(c) => s.(client := c)
      case WithName(n) => s.(name := n)
      case WithInstrumenter(i) => s.(instrumenter := Some(if i.None? then NopInstrumenter else i.value))
      case WithAPIKey(k) => s.(apiKey := k)
  }

  /** The options applied in list order. */
  function Configure(s: Settings, opts: seq<ProviderOption>): Settings
  {
    if opts == [] then s else ApplyOption(Configure(s, opts[..|opts| - 1]), opts[|opts| - 1])
  }

  /** The provider NewProvider returns: the options applied over the initial fields, then an empty name defaulted. */
  function Built(b: Backend, opts: seq<ProviderOption>): (r: Settings)
    ensures r.name != ""
    ensures var c := Configure(Initial(b), opts);
      r.client == c.client && r.apiKey == c.apiKey && r.instrumenter == c.instrumenter
      && (c.name != "" ==> r.name == c.name) && (c.name == "" ==> r.name == DefaultName(b))
  {
    var c := Configure(Initial(b), opts);
    if c.name == "" then c.(name := DefaultName(b)) else c
  }

  /** The last option writing a field decides it. */
  lemma {:induction false} LastOptionWins(s: Settings, opts: seq<ProviderOption>, i: nat)
    requires i < |opts|
    requires forall j :: i < j < |opts| ==> SlotOf(opts[j]) != SlotOf(opts[i])
    ensures SlotValueOf(Configure(s, opts), SlotOf(opts[i])) == Written(opts[i])
    decreases |opts|
  {
    if i < |opts| - 1 {
      LastOptionWins(s, opts[..|opts| - 1], i);
    }
  }

  /** A field no option writes keeps its initial value. */
  lemma {:induction false} UntouchedSlot(s: Settings, opts: seq<ProviderOption>, slot: Slot)
    requires forall j :: 0 <= j < |opts| ==> SlotOf(opts[j]) != slot
    ensures SlotValueOf(Configure(s, opts), slot) == SlotValueOf(s, slot)
    decreases |opts|
  {
    if opts != [] {
      UntouchedSlot(s, opts[..|opts| - 1], slot);
    }
  }

  /** The last non-empty WithName names the provider. */
  lemma LastNameWins(b: Backend, opts: seq<ProviderOption>, i: nat)
    requires i < |opts| && opts[i].WithName? && opts[i].name != ""
    requires forall j :: i < j < |opts| ==> !opts[j].WithName?
    ensures Built(b, opts).name == opts[i].name
  {
    LastOptionWins(Initial(b), opts, i);
  }

  /** Without any WithName the provider carries the package's default name. */
  lemma DefaultNameWithoutWithName(b: Backend, opts: seq<ProviderOption>)
    requires forall j :: 0 <= j < |opts| ==> !opts[j].WithName?
    ensures Built(b, opts).name == DefaultName(b)
  {
    UntouchedSlot(Initial(b), opts, NameSlot);
  }

  /** A package with an instrumenter field always holds one (never nil); a package without the field never gains one. */
  lemma {:induction false} InstrumenterPresence(b: Backend, opts: seq<ProviderOption>)
    requires forall j :: 0 <= j < |opts| ==> Offers(b, opts[j])
    ensures Configure(Initial(b), opts).instrumenter.Some? <==> HasInstrumenter(b)
    decreases |opts|
  {
    if opts != [] {
      InstrumenterPresence(b, opts[..|opts| - 1]);
    }
  }

  /** A nil WithInstrumenter that is the last instrumenter option leaves the no-op instrumenter in place. */
  lemma NilInstrumenterIsNop(b: Backend, opts: seq<ProviderOption>, i: nat)
    requires i < |opts| && opts[i] == WithInstrumenter(None)
    requires forall j :: i < j < |opts| ==> !opts[j].WithInstrumenter?
    ensures Built(b, opts).instrumenter == Some(NopInstrumenter)
  {
    LastOptionWins(Initial(b), opts, i);
  }

  /** The model kinds a provider can be asked for. */
  datatype Capability = LanguageCapability | RankingCapability | TextEmbeddingCapability
                      | MultimodalEmbeddingCapability | SparseEmbeddingCapability | SegmentingCapability

  /** The model kinds each package answers with an unsupported-functionality error. */
  predicate Unsupported(b: Backend, c: Capability)
  {
    match b
      case Chonkie => !c.SegmentingCapability?
      case Tei => c.LanguageCapability? || c.MultimodalEmbeddingCapability? || c.SegmentingCapability?
      case Jina => c.LanguageCapability?
      case OpenAI => c.MultimodalEmbeddingCapability?
  }

  /** The method name the error carries; openai spells its one "MultiModalEmbeddingModel". */
  function Label(b: Backend, c: Capability): string
  {
    match c
      case LanguageCapability => "LanguageModel"
      case RankingCapability => "RankingModel"
      case TextEmbeddingCapability => "TextEmbeddingModel"
      case MultimodalEmbeddingCapability => if b == OpenAI then "MultiModalEmbeddingModel" else "MultimodalEmbeddingModel"
      case SparseEmbeddingCapability => "SparseEmbeddingModel"
      case SegmentingCapability => "SegmentingModel"
  }

  class Provider {
    const backend: Backend
    var client: Client
    var name: string
    var apiKey: string
    var instrumenter: Option<Instrumenter>

    function Fields(): Settings
      reads this
    {
      Settings(client, name, apiKey, instrumenter)
    }

    /** Running one option closure on the provider. */
    method Apply(o: ProviderOption)
      requires Offers(backend, o)
      modifies this
      ensures Fields() == ApplyOption(old(Fields()), o)
    {
      match o
      case WithClient(c) => client := c;
      case WithName(n) => name := n;
      case WithInstrumenter(i) =>
        if i.None? {
          instrumenter := Some(NopInstrumenter);
        } else {
          instrumenter := i;
        }
      case WithAPIKey(k) => apiKey := k;
    }

    /** NewProvider: the initial fields, each option in turn, then the default name when the name is empty. */
    constructor (b: Backend, opts: seq<ProviderOption>)
      requires forall j :: 0 <= j < |opts| ==> Offers(b, opts[j])
      ensures backend == b
      ensures Fields() == Built(b, opts)
    {
      backend := b;
      client := DefaultClient;
      name := "";
      apiKey := "";
      instrumenter := Initial(b).instrumenter;
      new;
      for i := 0 to |opts|
        invariant backend == b
        invariant Fields() == Configure(Initial(b), opts[..i])
      {
        assert opts[..i + 1][..i] == opts[..i];
        Apply(opts[i]);
      }
      assert opts[..|opts|] == opts;
      if name == "" {
        name := DefaultName(b);
      }
    }

    /** A model kind the package does not offer: no model, and an unsupported-functionality error carrying the provider's name and the method's name. */
    function UnsupportedModel(c: Capability, modelID: string): (r: Result<()>)
      requires Unsupported(backend, c)
      reads this
      ensures r.Err? && r.error.UnsupportedFunctionality?
      ensures r.error.functionality == name && r.error.message == Label(backend, c)
    {
      Err(UnsupportedFunctionality(name, Label(backend, c)))
    }
  }
}
