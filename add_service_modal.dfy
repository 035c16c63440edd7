/** The "Add New Service" modal: a three-step wizard (type, provider, configuration) kept in four
    state cells. Breadcrumbs step back and clear only one selection each; `handleAdd` hands the
    collected record to `onAdd` and resets everything. */
module AddServiceModal {
  import opened JsRuntime
  import IdLists

  datatype Step = TypeStep | ProviderStep | ConfigStep

  datatype ProviderOption = ProviderOption(id: string, name: string)

  datatype TypeOption = TypeOption(serviceType: string, name: string, providers: seq<ProviderOption>)

  /** The modal's own `serviceTypes`: it lists grok under AI and has no SMTP entry. */
  const ServiceTypes: seq<TypeOption> := [
    TypeOption("ai", "AI Models", [ProviderOption("openai", "OpenAI"), ProviderOption("anthropic", "Anthropic"),
                                   ProviderOption("ollama", "Ollama"), ProviderOption("grok", "Grok")]),
    TypeOption("calendar", "Calendar", [ProviderOption("google_calendar", "Google Calendar"),
                                        ProviderOption("outlook", "Outlook Calendar")]),
    TypeOption("email", "Email", [ProviderOption("gmail", "Gmail"), ProviderOption("outlook", "Outlook")]),
    TypeOption("storage", "Storage", [ProviderOption("gdrive", "Google Drive"), ProviderOption("dropbox", "Dropbox")]),
    TypeOption("task", "Tasks", [ProviderOption("notion", "Notion")])]

  /** The callbacks the modal invokes, in order. */
  datatype Call = OnAdd(serviceType: string, provider: string, name: string, config: StringRecord) | OnClose

  /** `serviceTypes.find(t => t.type === selectedType)`. */
  function TypeConfig(selectedType: Option<string>): (r: Option<TypeOption>)
    ensures r.Some? ==> r.value in ServiceTypes && selectedType == Some(r.value.serviceType)
    ensures selectedType.Some? && (exists t :: t in ServiceTypes && t.serviceType == selectedType.value) ==> r.Some?
  {
    IdLists.FindFirst(ServiceTypes, (t: TypeOption) => selectedType == Some(t.serviceType))
  }

  class Modal {
    var selectedType: Option<string>
    var selectedProvider: Option<string>
    var serviceName: string
    var step: Step

    /** The four initial values. */
    predicate Initial()
      reads this
    {
      selectedType == None && selectedProvider == None && serviceName == "" && step == TypeStep
    }

    constructor ()
      ensures Initial()
    {
      selectedType, selectedProvider, serviceName, step := None, None, "", TypeStep;
    }

    /** The provider buttons shown: those of the selected type's catalog entry, in order, and
        only on the provider step. */
    function ProviderButtons(): seq<ProviderOption>
      reads this
    {
      var config := TypeConfig(selectedType);
      if step == ProviderStep && config.Some? then config.value.providers else []
    }

    /** The configuration step renders the name input and the credential form only when
        both selections are set. */
    predicate ConfigShown()
      reads this
    {
      step == ConfigStep && Truthy(selectedType) && Truthy(selectedProvider)
    }

    /** Clicking a type button. */
    method ChooseType(t: TypeOption)
      modifies this
      ensures selectedType == Some(t.serviceType) && step == ProviderStep
      ensures selectedProvider == old(selectedProvider) && serviceName == old(serviceName)
    {
      selectedType := Some(t.serviceType);
      step := ProviderStep;
    }

    /** Clicking a provider button: the name is pre-filled with the provider's display name. */
    method ChooseProvider(p: ProviderOption)
      modifies this
      ensures selectedProvider == Some(p.id) && serviceName == p.name && step == ConfigStep
      ensures selectedType == old(selectedType)
    {
      selectedProvider := Some(p.id);
      serviceName := p.name;
      step := ConfigStep;
    }

    /** The "Service Type" breadcrumb, rendered only at the provider and config steps: back to
        the first step, clearing only the type. */
    method TypeBreadcrumb()
      requires step == ProviderStep || step == ConfigStep
      modifies this
      ensures step == TypeStep && selectedType == None
      ensures selectedProvider == old(selectedProvider) && serviceName == old(serviceName)
    {
      step := TypeStep;
      selectedType := None;
    }

    /** The "Provider" breadcrumb, rendered only at the config step: back to the provider
        step, clearing only the provider. */
    method ProviderBreadcrumb()
      requires step == ConfigStep
      modifies this
      ensures step == ProviderStep && selectedProvider == None
      ensures selectedType == old(selectedType) && serviceName == old(serviceName)
    {
      step := ProviderStep;
      selectedProvider := None;
    }

    /** Typing in the service-name input. */
    method EditName(name: string)
      modifies this
      ensures serviceName == name
      ensures selectedType == old(selectedType) && selectedProvider == old(selectedProvider) && step == old(step)
    {
      serviceName := name;
    }

    /** `handleReset`: the close button, and the tail of a successful add. */
    method HandleReset() returns (calls: seq<Call>)
      modifies this
      ensures Initial() && calls == [OnClose]
    {
      selectedType, selectedProvider, serviceName, step := None, None, "", TypeStep;
      calls := [OnClose];
    }

    /** `handleAdd(config)`, the form's onSubmit: when type, provider and name are all
        non-empty, `onAdd` once with them (the name untrimmed) and then the reset; otherwise
        nothing at all. */
    method HandleAdd(config: StringRecord) returns (calls: seq<Call>)
      modifies this
      ensures old(Truthy(selectedType) && Truthy(selectedProvider) && serviceName != "") ==>
                Initial() &&
                calls == [OnAdd(old(selectedType).value, old(selectedProvider).value, old(serviceName), config), OnClose]
      ensures !old(Truthy(selectedType) && Truthy(selectedProvider) && serviceName != "") ==>
                calls == [] && unchanged(this)
    {
      if Truthy(selectedType) && Truthy(selectedProvider) && serviceName != "" {
        var added := OnAdd(selectedType.value, selectedProvider.value, serviceName, config);
        var reset := HandleReset();
        calls := [added] + reset;
      } else {
        calls := [];
      }
    }
  }

  /** Walking the wizard forward: pick a type, then one of its providers, edit nothing and
      submit: `onAdd` receives the type's id, the provider's id, the provider's display name and
      the form's values, and the modal is back in its initial state. */
  method WizardWalkthrough(t: TypeOption, p: ProviderOption, config: StringRecord) returns (calls: seq<Call>)
    requires t in ServiceTypes && p in t.providers
    ensures calls == [OnAdd(t.serviceType, p.id, p.name, config), OnClose]
  {
    var m := new Modal();
    m.ChooseType(t);
    m.ChooseProvider(p);
    calls := m.HandleAdd(config);
  }

  /** The type ids of the modal's catalog are distinct and non-empty. */
  lemma TypeIdsDistinct(u: TypeOption, v: TypeOption)
    requires u in ServiceTypes && v in ServiceTypes
    ensures u.serviceType != ""
    ensures u.serviceType == v.serviceType ==> u == v
  {
  }

  /** Every offered provider has a non-empty id. */
  lemma ProviderIdNonEmpty(t: TypeOption, p: ProviderOption)
    requires t in ServiceTypes && p in t.providers
    ensures p.id != ""
  {
  }

  /** Looking up an offered type's id finds that very type. */
  lemma ChosenTypeFound(t: TypeOption)
    requires t in ServiceTypes
    ensures TypeConfig(Some(t.serviceType)) == Some(t) && t.serviceType != ""
  {
    var config := TypeConfig(Some(t.serviceType));
    TypeIdsDistinct(config.value, t);
  }

  /** The screens of the wizard: after choosing an offered type the provider step shows exactly
      that type's providers, in order; the configuration form appears only once a provider is
      chosen as well, and the provider breadcrumb hides it again. */
  method WizardScreens(t: TypeOption, p: ProviderOption)
    returns (providers: seq<ProviderOption>, shownBefore: bool, shownAfter: bool, shownAfterBreadcrumb: bool)
    requires t in ServiceTypes && p in t.providers
    ensures providers == t.providers
    ensures !shownBefore && shownAfter && !shownAfterBreadcrumb
  {
    var m := new Modal();
    m.ChooseType(t);
    ChosenTypeFound(t);
    providers := m.ProviderButtons();
    shownBefore := m.ConfigShown();
    ProviderIdNonEmpty(t, p);
    m.ChooseProvider(p);
    shownAfter := m.ConfigShown();
    m.ProviderBreadcrumb();
    shownAfterBreadcrumb := m.ConfigShown();
  }
}
