/** The edit dialog for one registry entry: a draft (name and credentials) initialised from the
    entry, a validity test, a "Test Connection" button guarded by single flight, and "Save". */
module ServiceConfig {
  import opened JsRuntime
  import opened ServicesContext
  import opened ServiceTests

  /** `formData`. */
  datatype FormData = FormData(name: string, credentials: StringRecord)

  /** `{ name: service.name || '', credentials: service.credentials || {} }`. */
  function InitialForm(service: Service): FormData {
    FormData(service.name, service.credentials.GetOr(map[]))
  }

  /** `isValid`: the trimmed name is non-empty and every credential value is non-empty after
      trimming. */
  predicate FormValid(f: FormData) {
    !IsBlank(f.name) && forall k :: k in f.credentials ==> f.credentials[k] != "" && !IsBlank(f.credentials[k])
  }

  /** Validity in terms of characters: the name and every credential value each contain a
      character other than whitespace; with no credentials only the name matters. */
  lemma FormValidIff(f: FormData)
    ensures FormValid(f) <==> !AllWhitespace(f.name) && forall k :: k in f.credentials ==> !AllWhitespace(f.credentials[k])
    ensures f.credentials == map[] ==> (FormValid(f) <==> !AllWhitespace(f.name))
  {
    BlankIffAllWhitespace(f.name);
    forall k | k in f.credentials
      ensures (f.credentials[k] != "" && !IsBlank(f.credentials[k])) <==> !AllWhitespace(f.credentials[k])
    {
      BlankIffAllWhitespace(f.credentials[k]);
    }
  }

  /** The `onUpdate` argument of Save: name and credentials, the status left as it was. */
  function SavePatch(f: FormData): ServicePatch {
    NoChanges.(name := Some(f.name), credentials := Some(Some(f.credentials)))
  }

  /** The `onUpdate` argument after a test: the draft plus `status: 'connected'`. */
  function ConnectedPatch(f: FormData): ServicePatch {
    SavePatch(f).(status := Some(Connected))
  }

  /** Saving writes exactly the draft's name and credentials into the entry. */
  lemma SaveWritesDraft(s: Service, f: FormData)
    ensures Merge(s, SavePatch(f)) == s.(name := f.name, credentials := Some(f.credentials))
    ensures Merge(s, ConnectedPatch(f)) == s.(name := f.name, credentials := Some(f.credentials), status := Connected)
  {
  }

  /** What the dialog calls back. */
  datatype DialogCall = OnUpdate(updates: ServicePatch) | OnClose

  /** As written, `handleTest` passes `service.type` (a string) as the whole argument of
      `testService`, so the provider it looks up is the string's missing `provider` property:
      `testFunctions[undefined]`, i.e. the key "undefined", with no credentials. */
  function AsWrittenTestKey(service: Service): (key: string)
    ensures key !in TestFunctions
  {
    TemplateText(None)
  }

  /** As written, the result of the test is discarded and the entry is marked connected. */
  function AsWrittenAfterTest(f: FormData, result: TestResult): (calls: seq<DialogCall>) {
    [OnUpdate(ConnectedPatch(f))]
  }

  /** The discrepancy: for every entry and every network outcome the test the dialog runs
      fails, and the dialog marks the entry connected all the same. */
  lemma AsWrittenMarksConnectedOnFailure(service: Service, f: FormData, probe: Probe)
    ensures var result := TestService(AsWrittenTestKey(service), None, probe);
            && result == TestResult(false, "No test available for provider: undefined")
            && AsWrittenAfterTest(f, result) == [OnUpdate(ConnectedPatch(f))]
  {
  }

  /** The evidently intended test: the entry's own provider with the draft's credentials. */
  function IntendedTest(service: Service, f: FormData, probe: Probe): TestResult {
    TestService(service.provider, Some(f.credentials), probe)
  }

  /** The evidently intended follow-up: mark connected only on success, otherwise show the
      tester's message as the test error. Returns the calls and the new `testError`. */
  function CorrectedAfterTest(f: FormData, result: TestResult): (outcome: (seq<DialogCall>, Option<string>))
    ensures result.success ==> outcome == ([OnUpdate(ConnectedPatch(f))], None)
    ensures !result.success ==> outcome.0 == [] && outcome.1 == Some(result.message)
    ensures outcome.0 != [] <==> result.success
  {
    if result.success then ([OnUpdate(ConnectedPatch(f))], None) else ([], Some(result.message))
  }

  /** With the correction an entry is marked connected exactly when the tester accepts its
      provider and credentials; an untested provider such as google_calendar never is. */
  lemma CorrectedConnectsIffTestPasses(service: Service, f: FormData, probe: Probe)
    ensures var outcome := CorrectedAfterTest(f, IntendedTest(service, f, probe));
            (OnUpdate(ConnectedPatch(f)) in outcome.0) <==> IntendedTest(service, f, probe).success
    ensures service.provider !in TestFunctions ==>
            CorrectedAfterTest(f, IntendedTest(service, f, probe))
            == ([], Some("No test available for provider: " + service.provider))
  {
  }

  class Dialog {
    const service: Service
    var isTesting: bool
    var testError: Option<string>
    var form: FormData

    constructor (service: Service)
      ensures this.service == service && form == InitialForm(service)
      ensures !isTesting && testError == None
    {
      this.service := service;
      isTesting := false;
      testError := None;
      form := InitialForm(service);
    }

    /** The Test button is enabled while the draft is valid and no test is in flight. */
    predicate TestEnabled()
      reads this
    {
      FormValid(form) && !isTesting
    }

    /** The Save button is enabled while the draft is valid. */
    predicate SaveEnabled()
      reads this
    {
      FormValid(form)
    }

    /** Typing in the name input. */
    method EditName(name: string)
      modifies this
      ensures form == old(form).(name := name)
      ensures isTesting == old(isTesting) && testError == old(testError)
    {
      form := form.(name := name);
    }

    /** Typing in a credential input; inputs exist only for the keys already present, so the
        key set never changes. */
    method EditCredential(key: string, value: string)
      requires key in form.credentials
      modifies this
      ensures form.credentials == old(form.credentials)[key := value]
      ensures form.credentials.Keys == old(form.credentials.Keys) && form.name == old(form.name)
      ensures isTesting == old(isTesting) && testError == old(testError)
    {
      form := form.(credentials := form.credentials[key := value]);
    }

    /** Clicking Test, up to the `await`: nothing when the button is disabled; otherwise
        `isTesting` goes up, `testError` is cleared, and the returned key is the provider
        `testService` looks up. */
    method ClickTest() returns (lookup: Option<string>)
      modifies this
      ensures old(TestEnabled()) ==> isTesting && testError == None && lookup == Some(AsWrittenTestKey(service))
      ensures !old(TestEnabled()) ==> lookup == None && isTesting == old(isTesting) && testError == old(testError)
      ensures form == old(form)
    {
      if TestEnabled() {
        isTesting := true;
        testError := None;
        lookup := Some(AsWrittenTestKey(service));
      } else {
        lookup := None;
      }
    }

    /** After the `await`: `testService` always resolves, so the catch never runs; the result
        is ignored, `onUpdate` marks the entry connected, and `finally` lowers `isTesting`.
        The source spreads the draft its closure captured at the click; the model reads the
        draft at settle time. The two agree: the as-written lookup misses and returns without
        awaiting anything, so the handler finishes in the same microtask checkpoint, before
        any further input event (an edit between the click and the settle) can run. */
    method TestSettled(result: TestResult) returns (calls: seq<DialogCall>)
      requires isTesting
      modifies this
      ensures calls == AsWrittenAfterTest(old(form), result)
      ensures !isTesting && testError == old(testError) && form == old(form)
    {
      calls := AsWrittenAfterTest(form, result);
      isTesting := false;
    }

    /** Clicking Save: disabled while the draft is invalid; otherwise `onUpdate(formData)`
        (no status change) and then `onClose`. */
    method ClickSave() returns (calls: seq<DialogCall>)
      ensures calls == if SaveEnabled() then [OnUpdate(SavePatch(form)), OnClose] else []
    {
      if SaveEnabled() {
        calls := [OnUpdate(SavePatch(form)), OnClose];
      } else {
        calls := [];
      }
    }
  }
}
