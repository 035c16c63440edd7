/** The connection tester: a table from provider string to a per-provider check. Network checks
    issue one request whose outcome is an input of the model; OAuth providers and SMTP are
    checked by field presence only. Every check catches its own errors and yields a result. */
module ServiceTests {
  import opened JsRuntime

  datatype TestResult = TestResult(success: bool, message: string)

  /** What the one `fetch` of a network check came back with: a response whose `ok` is true,
      one whose `ok` is false, or a rejection carrying an error message ("" when the rejection
      has no message). */
  datatype Probe = ProbeOk | ProbeNotOk | ProbeFailed(message: string)

  /** The nine entries of the `testFunctions` table. */
  datatype Check =
    | OpenAICheck | AnthropicCheck | OllamaCheck | GmailCheck | OutlookCheck
    | SmtpCheck | DropboxCheck | GDriveCheck | NotionCheck

  const TestFunctions: map<string, Check> := map[
    "openai" := OpenAICheck,
    "anthropic" := AnthropicCheck,
    "ollama" := OllamaCheck,
    "gmail" := GmailCheck,
    "outlook" := OutlookCheck,
    "smtp" := SmtpCheck,
    "dropbox" := DropboxCheck,
    "gdrive" := GDriveCheck,
    "notion" := NotionCheck]

  /** The body of the one chat message the Anthropic probe sends. */
  datatype MessagesBody = MessagesBody(role: string, content: string, model: string, maxTokens: int)

  /** A `fetch` call: method, URL, headers in the order written, optional JSON body. */
  datatype Request = Request(httpMethod: string, url: string, headers: seq<(string, string)>,
                             body: Option<MessagesBody>)

  /** `catch (error) { ... error.message || fallback }`. */
  function CaughtMessage(thrown: string, fallback: string): (m: string)
    ensures fallback != "" ==> m != ""
    ensures thrown != "" ==> m == thrown
    ensures thrown == "" ==> m == fallback
  {
    if thrown != "" then thrown else fallback
  }

  /** The request a network check sends, or None for the checks that make no call. */
  function ProbeRequest(check: Check, credentials: StringRecord): (r: Option<Request>)
    ensures r.Some? <==> check in {OpenAICheck, AnthropicCheck, OllamaCheck, DropboxCheck, NotionCheck}
  {
    match check
    case OpenAICheck =>
      Some(Request("GET", "https://api.openai.com/v1/models",
        [("Authorization", "Bearer " + TemplateText(Get(credentials, "apiKey")))], None))
    case AnthropicCheck =>
      var model := Get(credentials, "model");
      Some(Request("POST", "https://api.anthropic.com/v1/messages",
        [("x-api-key", TemplateText(Get(credentials, "apiKey"))),
         ("anthropic-version", "2023-06-01"),
         ("content-type", "application/json")],
        Some(MessagesBody("user", "Hello", if Truthy(model) then model.value else "claude-3-opus", 1))))
    case OllamaCheck =>
      Some(Request("GET", TemplateText(Get(credentials, "endpoint")) + "/api/tags", [], None))
    case DropboxCheck =>
      Some(Request("POST", "https://api.dropboxapi.com/2/users/get_current_account",
        [("Authorization", "Bearer " + TemplateText(Get(credentials, "accessToken")))], None))
    case NotionCheck =>
      Some(Request("GET", "https://api.notion.com/v1/users/me",
        [("Authorization", "Bearer " + TemplateText(Get(credentials, "apiKey"))),
         ("Notion-Version", "2022-06-28")], None))
    case _ => None
  }

  /** A network check: `if (!response.ok) throw new Error(rejected)`, success message on an ok
      response, and the catch-all translation of a thrown error. */
  function NetworkResult(probe: Probe, rejected: string, connected: string, fallback: string): (r: TestResult)
    ensures r.success <==> probe == ProbeOk
    ensures !r.success && rejected != "" && fallback != "" ==> r.message != ""
  {
    match probe
    case ProbeOk => TestResult(true, connected)
    case ProbeNotOk => TestResult(false, CaughtMessage(rejected, fallback))
    case ProbeFailed(m) => TestResult(false, CaughtMessage(m, fallback))
  }

  /** The Gmail, Outlook and Google Drive checks: both OAuth client fields must be truthy. */
  function OAuthResult(credentials: StringRecord, fallback: string): (r: TestResult)
    ensures r.success <==> Truthy(Get(credentials, "clientId")) && Truthy(Get(credentials, "clientSecret"))
    ensures !r.success ==> r.message == "Missing required credentials"
  {
    if !Truthy(Get(credentials, "clientId")) || !Truthy(Get(credentials, "clientSecret")) then
      TestResult(false, CaughtMessage("Missing required credentials", fallback))
    else
      TestResult(true, "Credentials validated (OAuth flow required)")
  }

  /** The fields the SMTP check requires, in the order it reports them. */
  const SmtpRequired: seq<string> := ["host", "port", "username", "password"]

  /** `required.filter(field => !credentials[field])`. */
  function MissingFields(fields: seq<string>, credentials: StringRecord): (missing: seq<string>)
    ensures |missing| <= |fields|
  {
    if fields == [] then []
    else if !Truthy(Get(credentials, fields[0])) then [fields[0]] + MissingFields(fields[1..], credentials)
    else MissingFields(fields[1..], credentials)
  }

  /** A field is reported exactly when it is in the list and missing or empty. */
  lemma {:induction false} MissingFieldsExactly(fields: seq<string>, credentials: StringRecord)
    ensures forall f :: f in MissingFields(fields, credentials) <==> f in fields && !Truthy(Get(credentials, f))
  {
    if fields != [] {
      MissingFieldsExactly(fields[1..], credentials);
      assert fields == [fields[0]] + fields[1..];
    }
  }

  /** The filter distributes over concatenation: the missing fields of `a + b` are those of
      `a` followed by those of `b`, so the report keeps the order of the required list. */
  lemma {:induction false} MissingFieldsAppend(a: seq<string>, b: seq<string>, credentials: StringRecord)
    ensures MissingFields(a + b, credentials) == MissingFields(a, credentials) + MissingFields(b, credentials)
  {
    if a == [] {
      assert a + b == b;
    } else {
      assert (a + b)[0] == a[0];
      assert (a + b)[1..] == a[1..] + b;
      MissingFieldsAppend(a[1..], b, credentials);
    }
  }

  /** One field's share of the report: itself when it is missing or empty, nothing otherwise. */
  function MissingOne(f: string, credentials: StringRecord): seq<string> {
    if Truthy(Get(credentials, f)) then [] else [f]
  }

  lemma MissingSingle(f: string, credentials: StringRecord)
    ensures MissingFields([f], credentials) == MissingOne(f, credentials)
  {
    assert [f][1..] == [];
  }

  /** A four-field list reports each field only when it is missing or empty, in list order. */
  lemma MissingOfFour(fs: seq<string>, credentials: StringRecord)
    requires |fs| == 4
    ensures MissingFields(fs, credentials)
            == MissingOne(fs[0], credentials) + MissingOne(fs[1], credentials)
               + MissingOne(fs[2], credentials) + MissingOne(fs[3], credentials)
  {
    var cr := credentials;
    var front, back := fs[..2], fs[2..];
    assert fs == front + back;
    MissingFieldsAppend(front, back, cr);
    assert front == [fs[0]] + [fs[1]];
    MissingFieldsAppend([fs[0]], [fs[1]], cr);
    assert back == [fs[2]] + [fs[3]];
    MissingFieldsAppend([fs[2]], [fs[3]], cr);
    MissingSingle(fs[0], cr);
    MissingSingle(fs[1], cr);
    MissingSingle(fs[2], cr);
    MissingSingle(fs[3], cr);
  }

  /** The SMTP report lists host, port, username and password, each only when missing or
      empty, in that order. */
  lemma SmtpMissingInOrder(credentials: StringRecord)
    ensures MissingFields(SmtpRequired, credentials)
            == MissingOne("host", credentials) + MissingOne("port", credentials)
               + MissingOne("username", credentials) + MissingOne("password", credentials)
  {
    MissingOfFour(SmtpRequired, credentials);
  }

  /** The SMTP check: structural only, no connection attempt. */
  function SmtpResult(credentials: StringRecord): (r: TestResult)
    ensures r.success <==> MissingFields(SmtpRequired, credentials) == []
    ensures !r.success ==> r.message != ""
  {
    var missing := MissingFields(SmtpRequired, credentials);
    if |missing| > 0 then
      TestResult(false, CaughtMessage("Missing required fields: " + Join(missing, ", "),
                                      "Failed to validate SMTP credentials"))
    else
      TestResult(true, "SMTP credentials validated")
  }

  /** One entry of `testFunctions` applied to the credentials. */
  function RunCheck(check: Check, credentials: StringRecord, probe: Probe): (r: TestResult)
    ensures !r.success ==> r.message != ""
  {
    match check
    case OpenAICheck =>
      NetworkResult(probe, "Invalid API key", "Successfully connected to OpenAI", "Failed to connect to OpenAI")
    case AnthropicCheck =>
      NetworkResult(probe, "Invalid API key", "Successfully connected to Anthropic", "Failed to connect to Anthropic")
    case OllamaCheck =>
      NetworkResult(probe, "Failed to connect to Ollama instance", "Successfully connected to Ollama",
                    "Failed to connect to Ollama instance")
    case GmailCheck => OAuthResult(credentials, "Failed to validate Gmail credentials")
    case OutlookCheck => OAuthResult(credentials, "Failed to validate Outlook credentials")
    case SmtpCheck => SmtpResult(credentials)
    case DropboxCheck =>
      NetworkResult(probe, "Invalid access token", "Successfully connected to Dropbox", "Failed to connect to Dropbox")
    case GDriveCheck => OAuthResult(credentials, "Failed to validate Google Drive credentials")
    case NotionCheck =>
      NetworkResult(probe, "Invalid API key", "Successfully connected to Notion", "Failed to connect to Notion")
  }

  /** `testService({provider, credentials})`: dispatch on the provider string; missing
      credentials become `{}`. The function is total: the tester never rejects. */
  function TestService(provider: string, credentials: Option<StringRecord>, probe: Probe): (r: TestResult)
    ensures provider !in TestFunctions ==> r == TestResult(false, "No test available for provider: " + provider)
    ensures !r.success ==> r.message != ""
  {
    if provider !in TestFunctions then
      TestResult(false, "No test available for provider: " + provider)
    else
      RunCheck(TestFunctions[provider], credentials.GetOr(map[]), probe)
  }

  /** `service.credentials || {}`: absent credentials reach the check as the empty record. */
  lemma TestServiceAbsentCredentials(provider: string, probe: Probe)
    ensures TestService(provider, None, probe) == TestService(provider, Some(map[]), probe)
  {
  }

  /** The providers some catalog offers but the tester does not know. */
  lemma UntestedProviders(credentials: Option<StringRecord>, probe: Probe)
    ensures TestService("google_calendar", credentials, probe)
            == TestResult(false, "No test available for provider: google_calendar")
    ensures TestService("grok", credentials, probe)
            == TestResult(false, "No test available for provider: grok")
  {
  }

  /** SMTP fails exactly when one of host, port, username, password is missing or empty, and
      then lists exactly the missing ones in that order, comma-separated. */
  lemma SmtpReportsMissing(credentials: StringRecord, probe: Probe)
    ensures var r := TestService("smtp", Some(credentials), probe);
            var missing := MissingFields(SmtpRequired, credentials);
            && (r.success <==> forall f :: f in SmtpRequired ==> Truthy(Get(credentials, f)))
            && (!r.success ==> r.message == "Missing required fields: " + Join(missing, ", "))
            && (r.success ==> r.message == "SMTP credentials validated")
  {
    var missing := MissingFields(SmtpRequired, credentials);
    MissingFieldsExactly(SmtpRequired, credentials);
    assert TestFunctions["smtp"] == SmtpCheck;
    assert TestService("smtp", Some(credentials), probe) == SmtpResult(credentials);
    if |missing| > 0 {
      var f := missing[0];
      assert f in missing;
    } else {
      assert forall f :: f in SmtpRequired ==> f !in missing;
    }
  }

  /** With host and username given and port and password absent, exactly port and password
      are reported, in that order. */
  lemma SmtpExample(credentials: StringRecord, probe: Probe)
    requires Truthy(Get(credentials, "host")) && Truthy(Get(credentials, "username"))
    requires "port" !in credentials && "password" !in credentials
    ensures TestService("smtp", Some(credentials), probe)
            == TestResult(false, "Missing required fields: port, password")
  {
    var tail := SmtpRequired[3..];
    assert tail == ["password"];
    assert MissingFields(tail, credentials) == ["password"];
    assert SmtpRequired[2..][1..] == tail;
    assert MissingFields(SmtpRequired[2..], credentials) == ["password"];
    assert SmtpRequired[1..][1..] == SmtpRequired[2..];
    assert MissingFields(SmtpRequired[1..], credentials) == ["port", "password"];
    assert MissingFields(SmtpRequired, credentials) == ["port", "password"];
    JoinSnoc(["port"], "password", ", ");
    assert ["port"] + ["password"] == ["port", "password"];
    assert TestService("smtp", Some(credentials), probe) == SmtpResult(credentials);
  }

  /** Gmail, Outlook and Google Drive make no request; they fail with "Missing required
      credentials" exactly when clientId or clientSecret is missing or empty. */
  lemma OAuthChecksArePresenceOnly(provider: string, credentials: StringRecord, probe: Probe, other: Probe)
    requires provider in {"gmail", "outlook", "gdrive"}
    ensures ProbeRequest(TestFunctions[provider], credentials) == None
    ensures TestService(provider, Some(credentials), probe) == TestService(provider, Some(credentials), other)
    ensures var ok := Truthy(Get(credentials, "clientId")) && Truthy(Get(credentials, "clientSecret"));
            TestService(provider, Some(credentials), probe)
            == if ok then TestResult(true, "Credentials validated (OAuth flow required)")
               else TestResult(false, "Missing required credentials")
  {
    var check := TestFunctions[provider];
    assert check in {GmailCheck, OutlookCheck, GDriveCheck};
    assert TestService(provider, Some(credentials), probe) == RunCheck(check, credentials, probe);
    assert TestService(provider, Some(credentials), other) == RunCheck(check, credentials, other);
  }

  /** The message a network provider's probe gives on a response that is not ok. */
  function RejectedMessage(provider: string): string {
    if provider == "dropbox" then "Invalid access token"
    else if provider == "ollama" then "Failed to connect to Ollama instance"
    else "Invalid API key"
  }

  /** The display name in a network provider's success message. */
  function ConnectedName(provider: string): string {
    match provider
    case "openai" => "OpenAI"
    case "anthropic" => "Anthropic"
    case "ollama" => "Ollama"
    case "dropbox" => "Dropbox"
    case _ => "Notion"
  }

  /** The message a network provider's probe falls back to when the thrown error has none. */
  function FallbackMessage(provider: string): string {
    if provider == "ollama" then "Failed to connect to Ollama instance"
    else "Failed to connect to " + ConnectedName(provider)
  }

  /** The network providers: an ok response connects, a response that is not ok fails with the
      provider's fixed message, and a transport error fails with its own message. */
  lemma NetworkOutcomes(provider: string, credentials: Option<StringRecord>, m: string)
    requires provider in {"openai", "anthropic", "ollama", "dropbox", "notion"}
    ensures TestService(provider, credentials, ProbeOk)
            == TestResult(true, "Successfully connected to " + ConnectedName(provider))
    ensures TestService(provider, credentials, ProbeNotOk)
            == TestResult(false, RejectedMessage(provider))
    ensures m != "" ==> TestService(provider, credentials, ProbeFailed(m)) == TestResult(false, m)
  {
    NetworkDispatch(provider, credentials, ProbeOk);
    NetworkDispatch(provider, credentials, ProbeNotOk);
    NetworkDispatch(provider, credentials, ProbeFailed(m));
  }

  /** A transport error with an empty message falls back to the provider's own message. */
  lemma NetworkFallbacks(provider: string, credentials: Option<StringRecord>)
    requires provider in {"openai", "anthropic", "ollama", "dropbox", "notion"}
    ensures TestService(provider, credentials, ProbeFailed("")) == TestResult(false, FallbackMessage(provider))
  {
    NetworkDispatch(provider, credentials, ProbeFailed(""));
  }

  /** Each network provider's entry is a network check with that provider's three texts. */
  lemma NetworkDispatch(provider: string, credentials: Option<StringRecord>, probe: Probe)
    requires provider in {"openai", "anthropic", "ollama", "dropbox", "notion"}
    ensures TestService(provider, credentials, probe)
            == NetworkResult(probe, RejectedMessage(provider), "Successfully connected to " + ConnectedName(provider),
                             FallbackMessage(provider))
  {
    if provider == "openai" {
      NetworkDispatchOpenAI(provider, credentials, probe);
    } else if provider == "anthropic" {
      NetworkDispatchAnthropic(provider, credentials, probe);
    } else if provider == "ollama" {
      NetworkDispatchOllama(provider, credentials, probe);
    } else if provider == "dropbox" {
      NetworkDispatchDropbox(provider, credentials, probe);
    } else {
      NetworkDispatchNotion(provider, credentials, probe);
    }
  }

  /** `NetworkDispatch` for one provider at a time. */
  lemma NetworkDispatchOpenAI(provider: string, credentials: Option<StringRecord>, probe: Probe)
    requires provider == "openai"
    ensures TestService(provider, credentials, probe)
            == NetworkResult(probe, RejectedMessage(provider), "Successfully connected to " + ConnectedName(provider),
                             FallbackMessage(provider))
  {
    NetworkEntry(provider, OpenAICheck, credentials, probe, "Invalid API key", "OpenAI", "Failed to connect to OpenAI");
    assert RejectedMessage(provider) == "Invalid API key" && ConnectedName(provider) == "OpenAI";
    assert FallbackMessage(provider) == "Failed to connect to OpenAI";
  }

  lemma NetworkDispatchAnthropic(provider: string, credentials: Option<StringRecord>, probe: Probe)
    requires provider == "anthropic"
    ensures TestService(provider, credentials, probe)
            == NetworkResult(probe, RejectedMessage(provider), "Successfully connected to " + ConnectedName(provider),
                             FallbackMessage(provider))
  {
    NetworkEntry(provider, AnthropicCheck, credentials, probe, "Invalid API key", "Anthropic", "Failed to connect to Anthropic");
    assert RejectedMessage(provider) == "Invalid API key" && ConnectedName(provider) == "Anthropic";
    assert FallbackMessage(provider) == "Failed to connect to Anthropic";
  }

  lemma NetworkDispatchOllama(provider: string, credentials: Option<StringRecord>, probe: Probe)
    requires provider == "ollama"
    ensures TestService(provider, credentials, probe)
            == NetworkResult(probe, RejectedMessage(provider), "Successfully connected to " + ConnectedName(provider),
                             FallbackMessage(provider))
  {
    NetworkEntry(provider, OllamaCheck, credentials, probe, "Failed to connect to Ollama instance", "Ollama", "Failed to connect to Ollama instance");
    assert RejectedMessage(provider) == "Failed to connect to Ollama instance" && ConnectedName(provider) == "Ollama";
    assert FallbackMessage(provider) == "Failed to connect to Ollama instance";
  }

  lemma NetworkDispatchDropbox(provider: string, credentials: Option<StringRecord>, probe: Probe)
    requires provider == "dropbox"
    ensures TestService(provider, credentials, probe)
            == NetworkResult(probe, RejectedMessage(provider), "Successfully connected to " + ConnectedName(provider),
                             FallbackMessage(provider))
  {
    NetworkEntry(provider, DropboxCheck, credentials, probe, "Invalid access token", "Dropbox", "Failed to connect to Dropbox");
    assert RejectedMessage(provider) == "Invalid access token" && ConnectedName(provider) == "Dropbox";
    assert FallbackMessage(provider) == "Failed to connect to Dropbox";
  }

  lemma NetworkDispatchNotion(provider: string, credentials: Option<StringRecord>, probe: Probe)
    requires provider == "notion"
    ensures TestService(provider, credentials, probe)
            == NetworkResult(probe, RejectedMessage(provider), "Successfully connected to " + ConnectedName(provider),
                             FallbackMessage(provider))
  {
    NetworkEntry(provider, NotionCheck, credentials, probe, "Invalid API key", "Notion", "Failed to connect to Notion");
    assert RejectedMessage(provider) == "Invalid API key" && ConnectedName(provider) == "Notion";
    assert FallbackMessage(provider) == "Failed to connect to Notion";
  }

  /** The entry a provider names, run on its credentials. */
  lemma NetworkEntry(provider: string, check: Check, credentials: Option<StringRecord>, probe: Probe,
                     rejected: string, name: string, fallback: string)
    requires provider in TestFunctions && TestFunctions[provider] == check
    requires RunCheck(check, credentials.GetOr(map[]), probe)
             == NetworkResult(probe, rejected, "Successfully connected to " + name, fallback)
    ensures TestService(provider, credentials, probe)
            == NetworkResult(probe, rejected, "Successfully connected to " + name, fallback)
  {
  }

  /** The Anthropic probe names `credentials.model`, or claude-3-opus when that is missing or
      empty, and asks for a single token. */
  lemma AnthropicProbeModel(credentials: StringRecord)
    ensures var r := ProbeRequest(AnthropicCheck, credentials);
            && r.Some? && r.value.body.Some?
            && r.value.body.value.maxTokens == 1
            && r.value.body.value.model
               == (if "model" in credentials && credentials["model"] != "" then credentials["model"]
                   else "claude-3-opus")
  {
  }

  /** The Ollama probe URL is the configured endpoint followed by /api/tags. */
  lemma OllamaProbeUrl(credentials: StringRecord)
    requires "endpoint" in credentials
    ensures ProbeRequest(OllamaCheck, credentials).Some?
    ensures ProbeRequest(OllamaCheck, credentials).value.url == credentials["endpoint"] + "/api/tags"
  {
  }

  /** The Dropbox probe reads `accessToken`, a key the credential form never collects (it
      asks for appKey and appSecret): a Dropbox entry filled in through the form is always
      probed with the bearer token "undefined". */
  lemma DropboxReadsAccessToken(credentials: StringRecord)
    requires credentials.Keys <= {"appKey", "appSecret"}
    ensures ProbeRequest(DropboxCheck, credentials).Some?
    ensures ProbeRequest(DropboxCheck, credentials).value.headers == [("Authorization", "Bearer undefined")]
  {
    assert Get(credentials, "accessToken") == None;
    assert "Bearer " + "undefined" == "Bearer undefined";
  }
}
