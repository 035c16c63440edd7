/** The credential form: a static catalog from (service type, provider) to the ordered list of
    credential fields, the form's two state cells (`config` and `showPasswords`) and its
    validity test. */
module ServiceConfigForm {
  import opened JsRuntime

  datatype InputKind = Text | Password | Select | Number

  datatype SelectOption = SelectOption(value: string, caption: string)

  /** A `ConfigField` (its `label` is called `caption`: `label` is a Dafny keyword); `required`
      is the JavaScript truthiness of the optional flag. */
  datatype Field = Field(
    key: string,
    caption: string,
    kind: InputKind,
    placeholder: Option<string>,
    options: seq<SelectOption>,
    required: bool,
    helperText: Option<string>)

  /** The two OAuth client fields shared by Google Calendar, Outlook, Gmail and Google Drive. */
  function ClientFields(helper: string): seq<Field> {
    [Field("clientId", "Client ID", Text, None, [], true, Some(helper)),
     Field("clientSecret", "Client Secret", Password, None, [], true, Some(helper))]
  }

  const OpenAIFields: seq<Field> := [
    Field("apiKey", "API Key", Password, None, [], true, Some("Find your API key in the OpenAI dashboard")),
    Field("model", "Default Model", Select, None,
          [SelectOption("gpt-4", "GPT-4"), SelectOption("gpt-4-turbo", "GPT-4 Turbo"),
           SelectOption("gpt-3.5-turbo", "GPT-3.5 Turbo")], true, None)]

  const AnthropicFields: seq<Field> := [
    Field("apiKey", "API Key", Password, None, [], true, Some("Find your API key in the Anthropic console")),
    Field("model", "Default Model", Select, None,
          [SelectOption("claude-3-opus", "Claude 3 Opus"), SelectOption("claude-3-sonnet", "Claude 3 Sonnet"),
           SelectOption("claude-2.1", "Claude 2.1")], true, None)]

  const OllamaFields: seq<Field> := [
    Field("endpoint", "API Endpoint", Text, Some("http://localhost:11434"), [], true,
          Some("Your Ollama server endpoint")),
    Field("model", "Default Model", Text, Some("llama2"), [], true, Some("Name of the model to use"))]

  const DropboxFields: seq<Field> := [
    Field("appKey", "App Key", Text, None, [], true, Some("From Dropbox Developer Console")),
    Field("appSecret", "App Secret", Password, None, [], true, Some("From Dropbox Developer Console"))]

  const NotionFields: seq<Field> := [
    Field("apiKey", "Integration Token", Password, None, [], true, Some("From Notion Integrations page"))]

  /** The (type, provider) pairs `serviceConfigs` declares. */
  predicate Catalogued(serviceType: string, provider: string) {
    match serviceType
    case "ai" => provider in {"openai", "anthropic", "ollama"}
    case "calendar" => provider in {"google_calendar", "outlook"}
    case "email" => provider in {"gmail", "outlook"}
    case "storage" => provider in {"gdrive", "dropbox"}
    case "task" => provider == "notion"
    case _ => false
  }

  /** `serviceConfigs[type]?.[provider] || []`: the declared list, or empty for a pair the
      table does not declare; the lookup never fails. */
  function FieldsFor(serviceType: string, provider: string): (fields: seq<Field>)
    ensures !Catalogued(serviceType, provider) ==> fields == []
    ensures Catalogued(serviceType, provider) ==> |fields| > 0
  {
    match (serviceType, provider)
    case ("ai", "openai") => OpenAIFields
    case ("ai", "anthropic") => AnthropicFields
    case ("ai", "ollama") => OllamaFields
    case ("calendar", "google_calendar") => ClientFields("From Google Cloud Console")
    case ("calendar", "outlook") => ClientFields("From Microsoft Azure Portal")
    case ("email", "gmail") => ClientFields("From Google Cloud Console")
    case ("email", "outlook") => ClientFields("From Microsoft Azure Portal")
    case ("storage", "gdrive") => ClientFields("From Google Cloud Console")
    case ("storage", "dropbox") => DropboxFields
    case ("task", "notion") => NotionFields
    case _ => []
  }

  /** `config[key] && config[key].trim() !== ''`. */
  predicate Filled(config: StringRecord, key: string) {
    Truthy(Get(config, key)) && !IsBlank(config[key])
  }

  /** `fields.every(field => !field.required || Filled(config, field.key))`. */
  function AllRequiredFilled(fields: seq<Field>, config: StringRecord): (valid: bool)
  {
    if fields == [] then true
    else (!fields[0].required || Filled(config, fields[0].key)) && AllRequiredFilled(fields[1..], config)
  }

  /** The form is valid iff every field marked required has a value with a character other
      than whitespace; non-required fields play no part. */
  lemma {:induction false} AllRequiredFilledIff(fields: seq<Field>, config: StringRecord)
    ensures AllRequiredFilled(fields, config) <==>
            forall i :: 0 <= i < |fields| && fields[i].required ==>
              fields[i].key in config && !AllWhitespace(config[fields[i].key])
  {
    if fields != [] {
      AllRequiredFilledIff(fields[1..], config);
      if fields[0].key in config {
        BlankIffAllWhitespace(config[fields[0].key]);
      }
      assert forall i :: 1 <= i < |fields| ==> fields[i] == fields[1..][i - 1];
    }
  }

  /** Every field the catalog declares is required, so for a catalogued pair validity means
      that every listed key is filled. */
  lemma CatalogFieldsAllRequired(serviceType: string, provider: string, config: StringRecord)
    ensures forall f :: f in FieldsFor(serviceType, provider) ==> f.required
    ensures AllRequiredFilled(FieldsFor(serviceType, provider), config) <==>
            forall f :: f in FieldsFor(serviceType, provider) ==> Filled(config, f.key)
  {
    var fields := FieldsFor(serviceType, provider);
    assert forall f :: f in fields ==> f.required;
    AllFieldsRequiredValid(fields, config);
  }

  /** When every field is required, `every` asks for every key to be filled. */
  lemma {:induction false} AllFieldsRequiredValid(fields: seq<Field>, config: StringRecord)
    requires forall f :: f in fields ==> f.required
    ensures AllRequiredFilled(fields, config) <==> forall f :: f in fields ==> Filled(config, f.key)
  {
    if fields != [] {
      AllFieldsRequiredValid(fields[1..], config);
      assert forall f :: f in fields ==> f == fields[0] || f in fields[1..];
    }
  }

  /** Pairs some wizard offers but the catalog lacks get no fields, so their form is valid at
      once. */
  lemma CatalogGaps(config: StringRecord)
    ensures FieldsFor("ai", "grok") == [] && AllRequiredFilled(FieldsFor("ai", "grok"), config)
    ensures FieldsFor("email", "smtp") == [] && AllRequiredFilled(FieldsFor("email", "smtp"), config)
  {
  }

  /** OpenAI with an API key never typed, or typed as whitespace only, keeps submit disabled. */
  lemma OpenAIBlankKeyInvalid(config: StringRecord)
    ensures "apiKey" !in config ==> !AllRequiredFilled(FieldsFor("ai", "openai"), config)
    ensures "apiKey" in config && AllWhitespace(config["apiKey"]) ==> !AllRequiredFilled(FieldsFor("ai", "openai"), config)
  {
    if "apiKey" in config {
      BlankIffAllWhitespace(config["apiKey"]);
    }
    if "apiKey" !in config || AllWhitespace(config["apiKey"]) {
      assert !Filled(config, "apiKey");
    }
  }

  /** OpenAI with a non-blank apiKey and model enables submit. */
  lemma OpenAIFilledValid(config: StringRecord)
    requires "apiKey" in config && !AllWhitespace(config["apiKey"])
    requires "model" in config && !AllWhitespace(config["model"])
    ensures AllRequiredFilled(FieldsFor("ai", "openai"), config)
  {
    BlankIffAllWhitespace(config["apiKey"]);
    BlankIffAllWhitespace(config["model"]);
    assert Filled(config, "apiKey") && Filled(config, "model");
    assert OpenAIFields[1..][1..] == [];
  }

  /** `!prev[key]` on the visibility map: an absent key reads as hidden. */
  predicate Shown(showPasswords: map<string, bool>, key: string) {
    key in showPasswords && showPasswords[key]
  }

  /** `{ ...prev, [key]: !prev[key] }`. */
  function Toggle(showPasswords: map<string, bool>, key: string): (r: map<string, bool>)
    ensures Shown(r, key) == !Shown(showPasswords, key)
    ensures forall k :: k != key ==> (k in r <==> k in showPasswords) && (k in r ==> r[k] == showPasswords[k])
  {
    showPasswords[key := !Shown(showPasswords, key)]
  }

  /** Toggling a key twice restores what every key shows; it restores the map itself when the
      key was already present (an absent key ends up present with `false`). */
  lemma ToggleTwice(showPasswords: map<string, bool>, key: string)
    ensures forall k :: Shown(Toggle(Toggle(showPasswords, key), key), k) == Shown(showPasswords, k)
    ensures key in showPasswords ==> Toggle(Toggle(showPasswords, key), key) == showPasswords
    ensures key !in showPasswords ==> Toggle(Toggle(showPasswords, key), key) == showPasswords[key := false]
  {
  }

  /** A value written under a key no required field uses leaves validity as it was. */
  lemma {:induction false} OtherKeysDoNotMatter(fields: seq<Field>, config: StringRecord, key: string, value: string)
    requires forall f :: f in fields && f.required ==> f.key != key
    ensures AllRequiredFilled(fields, config[key := value]) == AllRequiredFilled(fields, config)
  {
    if fields != [] {
      assert forall f :: f in fields[1..] ==> f in fields;
      OtherKeysDoNotMatter(fields[1..], config, key, value);
    }
  }

  /** The form instance: created with empty state each time the configuration step shows it. */
  class ConfigForm {
    const serviceType: string
    const provider: string
    var config: StringRecord
    var showPasswords: map<string, bool>

    constructor (serviceType: string, provider: string)
      ensures this.serviceType == serviceType && this.provider == provider
      ensures config == map[] && showPasswords == map[]
    {
      this.serviceType := serviceType;
      this.provider := provider;
      config := map[];
      showPasswords := map[];
    }

    function Fields(): seq<Field> {
      FieldsFor(serviceType, provider)
    }

    /** `isValid`; the submit button is disabled while it is false. */
    predicate IsValid()
      reads this
    {
      AllRequiredFilled(Fields(), config)
    }

    /** The onChange handler of a field's input or select: sets only that key. */
    method SetField(key: string, value: string)
      modifies this
      ensures config == old(config)[key := value]
      ensures showPasswords == old(showPasswords)
    {
      config := config[key := value];
    }

    method TogglePasswordVisibility(key: string)
      modifies this
      ensures showPasswords == Toggle(old(showPasswords), key)
      ensures config == old(config)
    {
      showPasswords := Toggle(showPasswords, key);
    }

    /** Pressing the submit button: disabled (nothing happens) unless the form is valid,
        otherwise `onSubmit(config)` with the values as typed, untrimmed. */
    method Submit() returns (submitted: Option<StringRecord>)
      ensures submitted == if IsValid() then Some(config) else None
    {
      if IsValid() {
        submitted := Some(config);
      } else {
        submitted := None;
      }
    }
  }
}
