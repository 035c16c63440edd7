/** The in-place "Add Service" card: collapsed or expanded, and when expanded either the list of
    service types or the providers of the selected type. Clicking a provider reports
    (type, provider) to `onAdd` and collapses the card. */
module AddServiceCard {
  import opened JsRuntime
  import IdLists

  /** The `ServiceType` union. */
  datatype ServiceType = Email | Calendar | AI | Storage | Task

  function TypeId(t: ServiceType): string {
    match t
    case Email => "email"
    case Calendar => "calendar"
    case AI => "ai"
    case Storage => "storage"
    case Task => "task"
  }

  datatype CardProvider = CardProvider(id: string, name: string, description: string)

  datatype CardType = CardType(serviceType: ServiceType, caption: string, description: string,
                               providers: seq<CardProvider>)

  const EmailEntry := CardType(Email, "Email", "Connect email accounts from Gmail, Outlook, or custom SMTP", [
    CardProvider("gmail", "Gmail", "Connect with Google Gmail"),
    CardProvider("outlook", "Outlook", "Connect with Microsoft Outlook"),
    CardProvider("smtp", "Custom SMTP", "Connect any email service via SMTP")])

  const CalendarEntry := CardType(Calendar, "Calendar", "Integrate with Google Calendar or Outlook Calendar", [
    CardProvider("google_calendar", "Google Calendar", "Connect with Google Calendar"),
    CardProvider("outlook", "Outlook Calendar", "Connect with Microsoft Outlook Calendar")])

  const AIEntry := CardType(AI, "AI", "Connect to AI providers like OpenAI, Anthropic, or Ollama", [
    CardProvider("openai", "OpenAI", "Use GPT-4, GPT-3.5, and other OpenAI models"),
    CardProvider("anthropic", "Anthropic", "Use Claude and other Anthropic models"),
    CardProvider("grok", "Grok", "Use X's Grok AI model"),
    CardProvider("ollama", "Ollama", "Run open-source models locally")])

  const StorageEntry := CardType(Storage, "Storage", "Link cloud storage from Dropbox or Google Drive", [
    CardProvider("dropbox", "Dropbox", "Connect with Dropbox cloud storage"),
    CardProvider("gdrive", "Google Drive", "Connect with Google Drive")])

  const TaskEntry := CardType(Task, "Tasks", "Integrate with task management tools like Notion", [
    CardProvider("notion", "Notion", "Connect with Notion workspaces")])

  /** The card's own `serviceTypes`: it lists SMTP under email and grok under AI. */
  const ServiceTypes: seq<CardType> := [EmailEntry, CalendarEntry, AIEntry, StorageEntry, TaskEntry]

  /** `serviceTypes.find(s => s.type === t)?.providers`, empty when no entry matches. */
  function ProvidersOf(t: ServiceType): seq<CardProvider> {
    match IdLists.FindFirst(ServiceTypes, (c: CardType) => c.serviceType == t)
    case Some(c) => c.providers
    case None => []
  }

  /** Each type shows the providers of its own entry, in declared order; SMTP appears under
      email and grok under AI. */
  lemma ProvidersOfEachType(t: ServiceType)
    ensures exists k :: 0 <= k < |ServiceTypes| && ServiceTypes[k].serviceType == t
                        && ProvidersOf(t) == ServiceTypes[k].providers
    ensures CardProvider("smtp", "Custom SMTP", "Connect any email service via SMTP") in ProvidersOf(Email)
    ensures CardProvider("grok", "Grok", "Use X's Grok AI model") in ProvidersOf(AI)
  {
    var found := IdLists.FindFirst(ServiceTypes, (c: CardType) => c.serviceType == t);
    assert ServiceTypes[0].serviceType == Email && ServiceTypes[1].serviceType == Calendar
        && ServiceTypes[2].serviceType == AI && ServiceTypes[3].serviceType == Storage
        && ServiceTypes[4].serviceType == Task;
    var k := match t case Email => 0 case Calendar => 1 case AI => 2 case Storage => 3 case Task => 4;
    assert ServiceTypes[k] in ServiceTypes;
    assert found.Some?;
    var j :| 0 <= j < |ServiceTypes| && ServiceTypes[j] == found.value && found.value.serviceType == t;
    assert j == k;
    assert ProvidersOf(Email) == EmailEntry.providers by {
      var e := IdLists.FindFirst(ServiceTypes, (c: CardType) => c.serviceType == Email);
      assert ServiceTypes[0] in ServiceTypes;
    }
    assert ProvidersOf(AI) == AIEntry.providers by {
      var e := IdLists.FindFirst(ServiceTypes, (c: CardType) => c.serviceType == AI);
      assert ServiceTypes[2] in ServiceTypes;
      var i :| 0 <= i < |ServiceTypes| && ServiceTypes[i] == e.value && e.value.serviceType == AI;
      assert i == 2;
    }
  }

  /** What the card calls back. */
  datatype CardCall = OnAdd(serviceType: ServiceType, provider: string)

  class Card {
    var isExpanded: bool
    var selectedType: Option<ServiceType>

    constructor ()
      ensures !isExpanded && selectedType == None
    {
      isExpanded, selectedType := false, None;
    }

    /** The type buttons are shown on an expanded card with no type selected. */
    function TypeButtons(): seq<CardType>
      reads this
    {
      if isExpanded && selectedType.None? then ServiceTypes else []
    }

    /** The provider buttons are shown on an expanded card with a type selected. */
    function ProviderButtons(): seq<CardProvider>
      reads this
    {
      if isExpanded && selectedType.Some? then ProvidersOf(selectedType.value) else []
    }

    /** The collapsed card's button. */
    method Expand()
      modifies this
      ensures isExpanded && selectedType == old(selectedType)
    {
      isExpanded := true;
    }

    /** Clicking a type button. */
    method SelectType(t: ServiceType)
      modifies this
      ensures selectedType == Some(t) && isExpanded == old(isExpanded)
    {
      selectedType := Some(t);
    }

    /** The back arrow: back to the type list, still expanded. */
    method Back()
      modifies this
      ensures selectedType == None && isExpanded == old(isExpanded)
    {
      selectedType := None;
    }

    /** `handleReset`, also the close button. */
    method HandleReset()
      modifies this
      ensures !isExpanded && selectedType == None
    {
      selectedType := None;
      isExpanded := false;
    }

    /** Clicking a provider button, which only exists while a type is selected: `onAdd` once
        with the type and the provider's id, then the reset. */
    method ClickProvider(p: CardProvider) returns (calls: seq<CardCall>)
      requires selectedType.Some?
      modifies this
      ensures calls == [OnAdd(old(selectedType).value, p.id)]
      ensures !isExpanded && selectedType == None
    {
      calls := [OnAdd(selectedType.value, p.id)];
      HandleReset();
    }
  }

  /** The screens of the card: collapsed it shows no buttons; expanded, the five type buttons in
      catalog order; once a type is picked, that type's providers and no type buttons; the back
      arrow brings the type list back and hides the providers. */
  method CardScreens(t: ServiceType)
    returns (collapsedTypes: seq<CardType>, collapsedProviders: seq<CardProvider>,
             types: seq<CardType>, pickedTypes: seq<CardType>, pickedProviders: seq<CardProvider>,
             typesAfterBack: seq<CardType>, providersAfterBack: seq<CardProvider>)
    ensures collapsedTypes == [] && collapsedProviders == []
    ensures types == ServiceTypes
    ensures pickedTypes == [] && pickedProviders == ProvidersOf(t) && pickedProviders != []
    ensures typesAfterBack == ServiceTypes && providersAfterBack == []
  {
    var card := new Card();
    collapsedTypes, collapsedProviders := card.TypeButtons(), card.ProviderButtons();
    card.Expand();
    types := card.TypeButtons();
    card.SelectType(t);
    pickedTypes, pickedProviders := card.TypeButtons(), card.ProviderButtons();
    ProvidersOfEachType(t);
    card.Back();
    typesAfterBack, providersAfterBack := card.TypeButtons(), card.ProviderButtons();
  }
}
