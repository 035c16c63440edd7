/** The AI settings store: four provider slots keyed by provider name, a default provider and
    two switches, initialised from a saved copy or the defaults, changed by a merge into one
    slot or a shallow top-level merge. */
module AIContext {
  import opened JsRuntime

  datatype ProviderName = OpenAI | Anthropic | Grok | Ollama

  /** An `AIProvider`: `apiKey` and `endpoint` are optional. */
  datatype AIProvider = AIProvider(name: ProviderName, apiKey: Option<string>, model: string, endpoint: Option<string>)

  /** The `providers` object: one slot per provider name. */
  datatype Providers = Providers(openai: AIProvider, anthropic: AIProvider, grok: AIProvider, ollama: AIProvider)

  /** `providers[name]`. */
  function Slot(ps: Providers, name: ProviderName): AIProvider {
    match name
    case OpenAI => ps.openai
    case Anthropic => ps.anthropic
    case Grok => ps.grok
    case Ollama => ps.ollama
  }

  /** `{ ...providers, [name]: p }`: the named slot holds `p`, every other slot is kept. */
  function WithSlot(ps: Providers, name: ProviderName, p: AIProvider): (r: Providers)
    ensures Slot(r, name) == p
    ensures forall other :: other != name ==> Slot(r, other) == Slot(ps, other)
  {
    match name
    case OpenAI => ps.(openai := p)
    case Anthropic => ps.(anthropic := p)
    case Grok => ps.(grok := p)
    case Ollama => ps.(ollama := p)
  }

  datatype AISettings = AISettings(
    providers: Providers,
    defaultProvider: ProviderName,
    streamingEnabled: bool,
    saveHistory: bool)

  /** `defaultSettings`: models gpt-4-turbo, claude-3-opus, grok-1 and llama2, no API keys,
      an endpoint only for Ollama; OpenAI by default, streaming and history on. */
  const DefaultSettings := AISettings(
    Providers(
      AIProvider(OpenAI, None, "gpt-4-turbo", None),
      AIProvider(Anthropic, None, "claude-3-opus", None),
      AIProvider(Grok, None, "grok-1", None),
      AIProvider(Ollama, None, "llama2", Some("http://localhost:11434"))),
    OpenAI, true, true)

  /** A `Partial<AIProvider>`; it may carry a `name` too. For the optional keys `Some(None)`
      is a key set to undefined. */
  datatype ProviderPatch = ProviderPatch(
    name: Option<ProviderName>,
    apiKey: Option<Option<string>>,
    model: Option<string>,
    endpoint: Option<Option<string>>)

  const NoProviderChanges := ProviderPatch(None, None, None, None)

  /** A `Partial<AISettings>`: a present `providers` replaces all four slots. */
  datatype SettingsPatch = SettingsPatch(
    providers: Option<Providers>,
    defaultProvider: Option<ProviderName>,
    streamingEnabled: Option<bool>,
    saveHistory: Option<bool>)

  const NoSettingsChanges := SettingsPatch(None, None, None, None)

  function MergeProvider(p: AIProvider, u: ProviderPatch): AIProvider {
    AIProvider(u.name.GetOr(p.name), u.apiKey.GetOr(p.apiKey), u.model.GetOr(p.model), u.endpoint.GetOr(p.endpoint))
  }

  /** `updateProvider(name, updates)`: the named slot takes the partial; the other three slots
      and every top-level field are unchanged. */
  function ProviderUpdated(s: AISettings, name: ProviderName, u: ProviderPatch): (r: AISettings)
    ensures Slot(r.providers, name) == MergeProvider(Slot(s.providers, name), u)
    ensures forall other :: other != name ==> Slot(r.providers, other) == Slot(s.providers, other)
    ensures r.(providers := s.providers) == s
  {
    s.(providers := WithSlot(s.providers, name, MergeProvider(Slot(s.providers, name), u)))
  }

  /** `updateSettings(updates)`: `{ ...prev, ...updates }`. */
  function SettingsUpdated(s: AISettings, u: SettingsPatch): AISettings {
    AISettings(
      u.providers.GetOr(s.providers),
      u.defaultProvider.GetOr(s.defaultProvider),
      u.streamingEnabled.GetOr(s.streamingEnabled),
      u.saveHistory.GetOr(s.saveHistory))
  }

  /** The providers object is determined by its four slots. */
  lemma {:induction false} SlotsDetermineProviders(a: Providers, b: Providers)
    requires forall n :: Slot(a, n) == Slot(b, n)
    ensures a == b
  {
    assert Slot(a, OpenAI) == Slot(b, OpenAI);
    assert Slot(a, Anthropic) == Slot(b, Anthropic);
    assert Slot(a, Grok) == Slot(b, Grok);
    assert Slot(a, Ollama) == Slot(b, Ollama);
  }

  /** Applying the same provider update twice is applying it once; the empty partial leaves
      the settings equal to what they were. */
  lemma ProviderUpdateIdempotent(s: AISettings, name: ProviderName, u: ProviderPatch)
    ensures ProviderUpdated(ProviderUpdated(s, name, u), name, u) == ProviderUpdated(s, name, u)
    ensures ProviderUpdated(s, name, NoProviderChanges) == s
  {
    var once := ProviderUpdated(s, name, u);
    SlotsDetermineProviders(ProviderUpdated(once, name, u).providers, once.providers);
    SlotsDetermineProviders(ProviderUpdated(s, name, NoProviderChanges).providers, s.providers);
  }

  /** Updates to two different slots commute. */
  lemma ProviderUpdatesCommute(s: AISettings, a: ProviderName, u: ProviderPatch, b: ProviderName, v: ProviderPatch)
    requires a != b
    ensures ProviderUpdated(ProviderUpdated(s, a, u), b, v) == ProviderUpdated(ProviderUpdated(s, b, v), a, u)
  {
    SlotsDetermineProviders(ProviderUpdated(ProviderUpdated(s, a, u), b, v).providers,
                            ProviderUpdated(ProviderUpdated(s, b, v), a, u).providers);
  }

  /** The slot and the name it holds can disagree: a partial carrying `name` writes it into the
      slot it is applied to. */
  lemma SlotNameCanDiffer(s: AISettings)
    ensures Slot(ProviderUpdated(s, OpenAI, NoProviderChanges.(name := Some(Grok))).providers, OpenAI).name == Grok
  {
  }

  /** `updateSettings` is shallow: a given `providers` replaces all four slots, so a slot it
      leaves at a different value loses the old one; the other top-level keys are kept. */
  lemma SettingsUpdateShallow(s: AISettings, ps: Providers)
    ensures SettingsUpdated(s, NoSettingsChanges.(providers := Some(ps))) == s.(providers := ps)
    ensures SettingsUpdated(s, NoSettingsChanges) == s
    ensures SettingsUpdated(SettingsUpdated(s, NoSettingsChanges.(providers := Some(ps))), NoSettingsChanges.(providers := Some(ps)))
            == SettingsUpdated(s, NoSettingsChanges.(providers := Some(ps)))
  {
  }

  /** Every default slot holds the provider of its own name, without an API key. */
  lemma DefaultSlotsNamedAfterThemselves(n: ProviderName)
    ensures Slot(DefaultSettings.providers, n).name == n
    ensures Slot(DefaultSettings.providers, n).apiKey == None
    ensures Slot(DefaultSettings.providers, n).endpoint.Some? <==> n == Ollama
  {
  }

  /** The settings state cell. */
  class AIStore {
    var settings: AISettings

    /** `saved` is the parsed saved copy, or `None` when there is none or it does not parse. */
    constructor (saved: Option<AISettings>)
      ensures settings == saved.GetOr(DefaultSettings)
    {
      settings := saved.GetOr(DefaultSettings);
    }

    method UpdateProvider(name: ProviderName, updates: ProviderPatch)
      modifies this
      ensures settings == ProviderUpdated(old(settings), name, updates)
    {
      settings := ProviderUpdated(settings, name, updates);
    }

    method UpdateSettings(updates: SettingsPatch)
      modifies this
      ensures settings == SettingsUpdated(old(settings), updates)
    {
      settings := SettingsUpdated(settings, updates);
    }
  }
}
