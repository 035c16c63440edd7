# Nova Assistant service configuration, modelled in Dafny

Nova Assistant is a Next.js/React personal-assistant dashboard. It connects to external
services: e-mail, calendar, AI models, cloud storage and task tools. This project models the
part of it that configures those services:

- **The service registry** (`ServicesContext`): an ordered list of entries, changed by append,
  remove-by-id and update-by-id.
- **The credential form** (`ServiceConfigForm`): a static catalog from (service type, provider)
  to credential fields, the form state and its validity test.
- **The connection tester** (`ServiceTests`): a nine-entry table of per-provider checks behind
  a dispatcher that never rejects.
- **The two add wizards**: the "Add New Service" modal (`AddServiceModal`, three steps with
  breadcrumbs) and the in-place card (`AddServiceCard`).
- **The edit dialog** for an existing entry (`ServiceConfig`).
- **The view components**: the per-service card (`ServiceCard`, its provider label and
  status indicators) and the settings page (`SettingsPage`), which wires the modal to the
  registry.
- **The quick prompt box** (`QuickAIInput`).
- **The two settings stores** (`EmailContext` and `AIContext`), with nested record merges and
  a list of e-mail filter rules.

Two shared modules hold the JavaScript behaviour the components rely on:

- `JsRuntime`: `undefined` as `Option`, truthiness, template-literal rendering of
  `undefined`, `String.prototype.trim` with the ECMAScript whitespace set, `join`, ASCII
  `toUpperCase`, `indexOf` and first-occurrence `replace`.
- `IdLists`: `filter` by id, `map` by id and `find`, shared by the registry and the filter
  rules.

`Catalogs` puts the four provider lists side by side.

How the React code is represented:

- **State cells.** Each component's `useState` cells are the fields of a class, and each
  event handler is a method with `modifies this`.
- **Callbacks.** The callbacks a handler invokes (`onAdd`, `onClose`, `onUpdate`, `onSubmit`)
  are returned as a sequence of call records, in order.
- **Async handlers.** An `async` handler is split at its `await` into two methods: one for the
  part before it and one for the part after the promise settles.
- **Network probes.** The outcome of a `fetch` is an input: ok, not ok, or a transport error
  with a message.
- **Partial updates.** A `Partial<T>` argument is a patch record with an `Option` per key.
  For an optional key, `Some(None)` is the key explicitly set to `undefined`.
- **Renamed fields.** The source's `type` and `label` fields are called `serviceType`,
  `actionType` and `caption`, because `type` and `label` are Dafny keywords.
- **Status values.** `ServicesContext.tsx` and `ServiceCard.tsx` disagree on the possible
  statuses. The model uses one datatype with all five values: connected, disconnected,
  pending, error and configuring.

Where the documented design and the code disagree, the model follows the code:

- **Ids are not checked for uniqueness.** `addService` draws an id from `Math.random()` and
  never compares it with existing ids. The id is an arbitrary input, and the lemmas allow
  duplicates (`ServicesContext.AddThenRemove`).
- **Breadcrumbs clear one selection each.**
  - The "Service Type" breadcrumb clears only the type and keeps the provider.
  - Choosing a new type does not reset the provider.
- **The edit dialog does not gate Save behind a test.** Save is gated only by the draft's
  validity. The Test button marks the entry connected whatever the test returns (see Findings).
- **Catalog keys and tester keys differ.** The Dropbox form collects `appKey`/`appSecret`, but
  the Dropbox test reads `accessToken`.

## Model

| member | source | states |
|---|---|---|
| JsRuntime.Get | utils/serviceTests.ts:94 | reading a key of a record gives a value exactly when the key is present, and then the stored value |
| JsRuntime.TemplateText | utils/serviceTests.ts:13 | a missing value is interpolated as the text "undefined", a present one as itself |
| JsRuntime.TrimStart | components/ServiceConfigForm.tsx:219 | the result is a suffix of the input that is empty or starts with a non-whitespace character, and everything removed is whitespace |
| JsRuntime.TrimEnd | components/ServiceConfigForm.tsx:219 | the result is a prefix of the input that is empty or ends with a non-whitespace character, and everything removed is whitespace |
| JsRuntime.Trim | components/ServiceConfig.tsx:41-42 | the result is the slice of the input left after removing its leading and trailing whitespace: everything cut off at either end is whitespace, and the result is empty or has non-whitespace characters at both ends |
| JsRuntime.BlankIffAllWhitespace | components/QuickAIInput.tsx:19 | a string trims to empty exactly when every character is whitespace |
| JsRuntime.Join | utils/serviceTests.ts:97 | joining no parts gives the empty string, and joining one part gives that part |
| JsRuntime.JoinSnoc | utils/serviceTests.ts:97 | joining a list extended by one part is the old join, the separator, then the part |
| JsRuntime.UpperAscii | components/ServiceCard.tsx:75 | lower-case ASCII letters become the matching upper-case letter, and every other character is unchanged |
| JsRuntime.IndexOf | components/ServiceCard.tsx:75 | the result is the first position holding the character, or the length when the character is absent |
| JsRuntime.ReplaceFirst | components/ServiceCard.tsx:75 | same length as the input; every character other than the pattern is kept, and a string without the pattern is unchanged |
| JsRuntime.ReplaceFirstPointwise | components/ServiceCard.tsx:75 | only the position of the first occurrence is replaced |
| IdLists.RemoveById | contexts/ServicesContext.tsx:33 | the result keeps exactly the elements whose id differs from the argument and is never longer |
| IdLists.RemoveByIdAppend | contexts/ServicesContext.tsx:33 | filtering a concatenation filters each part, so survivors keep their order |
| IdLists.RemoveAbsentId | contexts/ServicesContext.tsx:33 | filtering by an id no element has leaves the list unchanged |
| IdLists.RemoveByIdIdempotent | contexts/ServicesContext.tsx:33 | filtering twice by the same id is filtering once |
| IdLists.UpdateById | contexts/ServicesContext.tsx:37-41 | same length; elements with the id are merged, all others are untouched in place |
| IdLists.UpdateAbsentId | contexts/ServicesContext.tsx:37-41 | updating by an id no element has leaves the list unchanged |
| IdLists.UpdateByIdIdempotent | contexts/ServicesContext.tsx:37-41 | with an idempotent merge, updating twice is updating once |
| IdLists.FindFirst | components/AddServiceModal.tsx:78 | None exactly when no element matches; otherwise the first matching element |
| ServicesContext.WithId | contexts/ServicesContext.tsx:25-28 | the new entry carries the given id and, apart from it, exactly the given fields |
| ServicesContext.Merge | contexts/ServicesContext.tsx:39 | `{...service, ...updates}`: a partial without an id keeps the entry's id (its algebra is MergeThen, MergeIdempotent, MergeNameOnly) |
| ServicesContext.MergeThen | contexts/ServicesContext.tsx:39 | two successive merges equal one merge of the combined partial |
| ServicesContext.MergeIdempotent | contexts/ServicesContext.tsx:39 | merging a partial twice is merging it once, and the empty partial changes nothing |
| ServicesContext.MergeNameOnly | contexts/ServicesContext.tsx:39 | updating with {name: X} gives name X and leaves every other field unchanged |
| ServicesContext.UpdatedById | contexts/ServicesContext.tsx:37-41 | same length; entries with the id take the partial, all others are untouched in place |
| ServicesContext.RemovedById | contexts/ServicesContext.tsx:33 | an entry is kept exactly when it was present and its id differs |
| ServicesContext.RemoveServiceKeepsOrder | contexts/ServicesContext.tsx:33 | removal keeps the other entries in their original order |
| ServicesContext.RemoveServiceIdempotent | contexts/ServicesContext.tsx:33 | a second removal with the same id, or a removal of an absent id, changes nothing |
| ServicesContext.UpdateServiceIdempotent | contexts/ServicesContext.tsx:37-41 | the same update applied twice equals applying it once |
| ServicesContext.AddThenRemove | contexts/ServicesContext.tsx:24-34 | adding an entry and removing its id removes it, together with every earlier entry that drew the same id |
| ServicesContext.ServicesStore.constructor | contexts/ServicesContext.tsx:22 | the registry starts empty |
| ServicesContext.ServicesStore.AddService | contexts/ServicesContext.tsx:24-30 | exactly one entry is appended at the end; earlier entries and their order are unchanged |
| ServicesContext.ServicesStore.RemoveService | contexts/ServicesContext.tsx:32-34 | the list becomes the filtered list |
| ServicesContext.ServicesStore.UpdateService | contexts/ServicesContext.tsx:36-42 | the list becomes the mapped list |
| ServiceConfigForm.FieldsFor | components/ServiceConfigForm.tsx:204 | the lookup never fails: an undeclared pair gives no fields, a declared pair at least one |
| ServiceConfigForm.Filled | components/ServiceConfigForm.tsx:219 | the key is present with a truthy value whose trim is non-empty (characterised by AllRequiredFilledIff) |
| ServiceConfigForm.AllRequiredFilled | components/ServiceConfigForm.tsx:218-220 | `every` over the fields: each field is optional or filled (characterised by AllRequiredFilledIff) |
| ServiceConfigForm.AllRequiredFilledIff | components/ServiceConfigForm.tsx:218-220 | the form is valid iff every required field has a present value with a non-whitespace character; other fields play no part |
| ServiceConfigForm.CatalogFieldsAllRequired | components/ServiceConfigForm.tsx:14-188 | every catalogued field is required, so for a catalogued pair validity means every listed key is filled |
| ServiceConfigForm.AllFieldsRequiredValid | components/ServiceConfigForm.tsx:218-220 | when all fields are required, `every` asks for each key to be filled |
| ServiceConfigForm.CatalogGaps | components/ServiceConfigForm.tsx:204-220 | ai/grok and email/smtp have no fields, so their forms are valid at once |
| ServiceConfigForm.OpenAIBlankKeyInvalid | components/ServiceConfigForm.tsx:16-35 | an OpenAI form whose API key was never typed, or is all whitespace, is invalid |
| ServiceConfigForm.OpenAIFilledValid | components/ServiceConfigForm.tsx:16-35 | an OpenAI form with a non-blank API key and model is valid |
| ServiceConfigForm.Toggle | components/ServiceConfigForm.tsx:211-216 | the toggled key's visibility flips; every other key is unchanged |
| ServiceConfigForm.ToggleTwice | components/ServiceConfigForm.tsx:211-216 | toggling twice restores every key's visibility, and restores the map itself when the key was present |
| ServiceConfigForm.OtherKeysDoNotMatter | components/ServiceConfigForm.tsx:218-220 | writing a key that no required field uses does not change validity |
| ServiceConfigForm.ConfigForm.constructor | components/ServiceConfigForm.tsx:201-202 | the form starts with no values and every password hidden |
| ServiceConfigForm.ConfigForm.SetField | components/ServiceConfigForm.tsx:234-238 | editing a field sets only that key |
| ServiceConfigForm.ConfigForm.TogglePasswordVisibility | components/ServiceConfigForm.tsx:211-216 | only the visibility map changes, by the toggle |
| ServiceConfigForm.ConfigForm.Submit | components/ServiceConfigForm.tsx:206-209 | nothing is submitted while invalid; otherwise the values are submitted as typed, untrimmed |
| ServiceConfigForm.ConfigForm.IsValid | components/ServiceConfigForm.tsx:218-220 | the form's validity is AllRequiredFilled of its pair's catalog fields and its values (so AllRequiredFilledIff applies) |
| ServiceTests.CaughtMessage | utils/serviceTests.ts:22-24 | a non-empty thrown message is kept; an empty one is replaced by the fallback itself |
| ServiceTests.ProbeRequest | utils/serviceTests.ts:9-154 | exactly the five network checks send a request |
| ServiceTests.MissingFields | utils/serviceTests.ts:93-94 | the report is never longer than the required list (membership and order are the two lemmas below) |
| ServiceTests.MissingFieldsExactly | utils/serviceTests.ts:94 | a field is reported exactly when it is in the required list and missing or empty |
| ServiceTests.MissingFieldsAppend | utils/serviceTests.ts:94 | the filter distributes over concatenation, so the report keeps the order of the required list |
| ServiceTests.MissingOfFour | utils/serviceTests.ts:94 | a four-field list reports each field only when it is missing or empty, in list order |
| ServiceTests.SmtpMissingInOrder | utils/serviceTests.ts:92-94 | the SMTP report is host, port, username, password, in that order, each present only when missing or empty |
| ServiceTests.NetworkResult | utils/serviceTests.ts:9-24 | a network check succeeds exactly on an ok response; every failure has a non-empty message when its texts are non-empty |
| ServiceTests.OAuthResult | utils/serviceTests.ts:65-76 | an OAuth check succeeds exactly when clientId and clientSecret are both truthy, and otherwise reports "Missing required credentials" |
| ServiceTests.SmtpResult | utils/serviceTests.ts:90-104 | the SMTP check succeeds exactly when no required field is missing; a failure has a non-empty message |
| ServiceTests.RunCheck | utils/serviceTests.ts:157-167 | every entry of the table fails only with a non-empty message |
| ServiceTests.TestService | utils/serviceTests.ts:169-180 | an unknown provider gives the fixed failure message; every failure carries a non-empty message, so the tester never rejects; absent credentials are dispatched as `{}` (TestServiceAbsentCredentials) |
| ServiceTests.TestServiceAbsentCredentials | utils/serviceTests.ts:176 | testing with no credentials gives the same result as testing with the empty record, for every provider and outcome |
| ServiceTests.UntestedProviders | utils/serviceTests.ts:157-173 | google_calendar and grok always get "No test available for provider: ..." |
| ServiceTests.SmtpReportsMissing | utils/serviceTests.ts:90-104 | SMTP fails exactly when host, port, username or password is missing or empty, and then reports the joined list of missing fields (its order is SmtpMissingInOrder) |
| ServiceTests.SmtpExample | utils/serviceTests.ts:93-97 | with host and username set and port and password absent, the message is "Missing required fields: port, password" |
| ServiceTests.OAuthChecksArePresenceOnly | utils/serviceTests.ts:65-88 | Gmail, Outlook and Google Drive make no request and fail with "Missing required credentials" iff clientId or clientSecret is falsy |
| ServiceTests.NetworkOutcomes | utils/serviceTests.ts:9-63 | an ok response connects; a response that is not ok fails with the provider's fixed message; a transport error fails with its own message |
| ServiceTests.NetworkFallbacks | utils/serviceTests.ts:48-50 | a transport error with an empty message fails with the provider's fallback message |
| ServiceTests.NetworkDispatch | utils/serviceTests.ts:157-173 | each network provider dispatches to a network check carrying that provider's rejection, success and fallback texts |
| ServiceTests.AnthropicProbeModel | utils/serviceTests.ts:36-40 | the Anthropic probe names credentials.model, or claude-3-opus when it is missing or empty, and asks for one token |
| ServiceTests.OllamaProbeUrl | utils/serviceTests.ts:55 | the Ollama probe URL is the endpoint followed by /api/tags |
| ServiceTests.DropboxReadsAccessToken | utils/serviceTests.ts:106-113 | a Dropbox entry filled in through the form is probed with the bearer token "undefined" |
| AddServiceModal.TypeConfig | components/AddServiceModal.tsx:78 | the selected type's catalog entry is found whenever the catalog has one |
| AddServiceModal.Modal.constructor | components/AddServiceModal.tsx:56-59 | the wizard starts at the type step with no type, no provider and an empty name |
| AddServiceModal.Modal.ChooseType | components/AddServiceModal.tsx:137-140 | choosing a type selects it and moves to the provider step |
| AddServiceModal.Modal.ChooseProvider | components/AddServiceModal.tsx:158-161 | choosing a provider selects it, pre-fills the name with its display name, and moves to the config step |
| AddServiceModal.Modal.TypeBreadcrumb | components/AddServiceModal.tsx:95-101 | clickable only at the provider and config steps, where it is rendered; back to the type step, clearing only the type |
| AddServiceModal.Modal.ProviderBreadcrumb | components/AddServiceModal.tsx:112-119 | clickable only at the config step, where it is rendered; back to the provider step, clearing only the provider |
| AddServiceModal.Modal.EditName | components/AddServiceModal.tsx:181 | typing sets only the name |
| AddServiceModal.Modal.HandleReset | components/AddServiceModal.tsx:68-74 | all four cells return to their initial values and onClose is called |
| AddServiceModal.Modal.HandleAdd | components/AddServiceModal.tsx:61-66 | when type, provider and name are all non-empty, onAdd is called once with them (name untrimmed), then the reset; otherwise nothing happens |
| AddServiceModal.WizardWalkthrough | components/AddServiceModal.tsx:134-190 | walking the wizard forward through any offered type and provider delivers exactly onAdd with their ids, the provider's display name and the form values, then onClose |
| AddServiceModal.Modal.ProviderButtons | components/AddServiceModal.tsx:153-169 | the provider step lists the selected type's providers (see WizardScreens) |
| AddServiceModal.Modal.ConfigShown | components/AddServiceModal.tsx:172 | the name input and form are rendered on the config step with both selections set (see WizardScreens) |
| AddServiceModal.TypeIdsDistinct | components/AddServiceModal.tsx:5-47 | the modal's type ids are non-empty and distinct |
| AddServiceModal.ProviderIdNonEmpty | components/AddServiceModal.tsx:5-47 | every provider the modal offers has a non-empty id |
| AddServiceModal.ChosenTypeFound | components/AddServiceModal.tsx:78 | looking up an offered type's id finds that very type |
| AddServiceModal.WizardScreens | components/AddServiceModal.tsx:132-172 | after choosing an offered type the provider step shows exactly its providers in order; the form appears only once a provider is chosen, and the provider breadcrumb hides it again |
| AddServiceCard.ProvidersOfEachType | components/AddServiceCard.tsx:10-69 | each type shows the providers of its own catalog entry, in declared order; SMTP is listed under email and grok under AI |
| AddServiceCard.ProvidersOf | components/AddServiceCard.tsx:106 | `serviceTypes.find(...)?.providers` (characterised by ProvidersOfEachType) |
| AddServiceCard.Card.TypeButtons | components/AddServiceCard.tsx:163-196 | the type buttons of an expanded card with no type (see CardScreens) |
| AddServiceCard.Card.ProviderButtons | components/AddServiceCard.tsx:198-226 | the provider buttons of an expanded card with a type (see CardScreens) |
| AddServiceCard.CardScreens | components/AddServiceCard.tsx:82-226 | collapsed: no buttons; expanded: the five types in catalog order; after picking a type: its non-empty provider list and no type buttons; back: the type list again and no providers |
| AddServiceCard.Card.constructor | components/AddServiceCard.tsx:74-75 | the card starts collapsed with no type |
| AddServiceCard.Card.Expand | components/AddServiceCard.tsx:85 | the expand button expands the card |
| AddServiceCard.Card.SelectType | components/AddServiceCard.tsx:168 | a type button selects the type |
| AddServiceCard.Card.Back | components/AddServiceCard.tsx:124 | back clears the type and keeps the card expanded |
| AddServiceCard.Card.HandleReset | components/AddServiceCard.tsx:77-80 | close resets both cells |
| AddServiceCard.Card.ClickProvider | components/AddServiceCard.tsx:203-206 | a provider click calls onAdd once with the type and the provider id, then resets |
| ServiceConfig.FormValidIff | components/ServiceConfig.tsx:41-42 | the draft is valid iff the name and every credential value contain a non-whitespace character; with no credentials only the name matters |
| ServiceConfig.InitialForm | components/ServiceConfig.tsx:18-21 | the draft starts as the entry's name and its credentials, or {} when it has none (used by Dialog.constructor) |
| ServiceConfig.SaveWritesDraft | components/ServiceConfig.tsx:36-39 | saving writes exactly the draft's name and credentials, and the test path adds status connected |
| ServiceConfig.AsWrittenTestKey | components/ServiceConfig.tsx:27 | the provider the dialog's test looks up is never in the tester's table |
| ServiceConfig.AsWrittenMarksConnectedOnFailure | components/ServiceConfig.tsx:27-28 | for every entry and network outcome, the test the dialog runs fails and the entry is marked connected anyway |
| ServiceConfig.CorrectedAfterTest | components/ServiceConfig.tsx:26-30 | corrected: connected only on success; otherwise the tester's message becomes the test error |
| ServiceConfig.CorrectedConnectsIffTestPasses | components/ServiceConfig.tsx:27-28 | corrected: an entry is marked connected iff its own provider's test passes, so an untested provider never is |
| ServiceConfig.Dialog.constructor | components/ServiceConfig.tsx:16-21 | the draft starts from the entry's name and credentials (or {}), not testing and with no error |
| ServiceConfig.Dialog.EditName | components/ServiceConfig.tsx:88 | typing sets only the draft's name |
| ServiceConfig.Dialog.EditCredential | components/ServiceConfig.tsx:112-116 | editing changes only that credential; the key set never changes |
| ServiceConfig.Dialog.ClickTest | components/ServiceConfig.tsx:23-25 | a disabled button does nothing; otherwise testing starts, the error is cleared and the lookup key is "undefined" |
| ServiceConfig.Dialog.TestSettled | components/ServiceConfig.tsx:26-33 | the result is ignored, the entry is marked connected, the error is left as it was and testing stops |
| ServiceConfig.Dialog.ClickSave | components/ServiceConfig.tsx:36-39 | disabled while invalid; otherwise onUpdate with the draft (no status change), then onClose |
| ServiceCard.ProviderLabel | components/ServiceCard.tsx:75 | the label has the provider's length and starts with its first character upper-cased (the full shape is ProviderLabelShape) |
| ServiceCard.ProviderLabelShape | components/ServiceCard.tsx:75 | the label has the provider's length; the first character is upper-cased; after it only the first underscore becomes a space |
| ServiceCard.LabelSplitsAtFirstUnderscore | components/ServiceCard.tsx:75 | a provider c+a+"_"+b with no underscore in a is shown as upper(c)+a+" "+b |
| ServiceCard.ReplaceFirstSplit | components/ServiceCard.tsx:75 | replacing the first underscore in a+"_"+b, with no underscore in a, gives a+" "+b |
| ServiceCard.GoogleCalendarLabel | components/ServiceCard.tsx:75 | google_calendar is shown as "Google calendar" |
| ServiceCard.OnlyFirstUnderscore | components/ServiceCard.tsx:75 | a_b_c is shown as "A b_c" |
| ServiceCard.LeadingUnderscoreKept | components/ServiceCard.tsx:75 | _x_y is shown as "_x y" |
| ServiceCard.StatusColor | components/ServiceCard.tsx:20-25 | every status has a colour except pending |
| ServiceCard.IndicatorsOf | components/ServiceCard.tsx:67-89 | the check icon shows exactly for connected and the alert icon exactly for error, so never together; the last-synced line shows exactly when lastSync is a non-empty string; the error banner shows exactly when the error text is non-empty |
| ServiceCard.IndicatorsExclusive | components/ServiceCard.tsx:67-77 | the check and alert icons never show together; changing the status to any value shows the check icon exactly for connected and the alert icon exactly for error, and leaves the error banner and the last-synced line unchanged |
| ServiceCard.Clicked | components/ServiceCard.tsx:46-53 | the trash button removes without selecting; anywhere else the card is selected |
| SettingsPage.AddedRecord | pages/settings.tsx:16-23 | the new record carries the name, type, provider and config unchanged, status connected and the timestamp |
| SettingsPage.AddedEntryShowsConnected | pages/settings.tsx:16-23 | an added entry is shown with the check icon, no alert and no error banner |
| SettingsPage.StatusText | pages/settings.tsx:60 | every status has a non-empty badge text |
| SettingsPage.StatusTextInjective | pages/settings.tsx:60 | different statuses show different badge texts |
| SettingsPage.Rows | pages/settings.tsx:40 | one row per entry, in registry order |
| SettingsPage.RowOf | pages/settings.tsx:44-90 | one row shows the name, "provider - type", the status badge and the last-synced line when lastSync is truthy |
| SettingsPage.AddAppendsOneRow | pages/settings.tsx:40 | adding an entry appends exactly one row, at the end |
| SettingsPage.Page.constructor | pages/settings.tsx:8 | the modal starts closed |
| SettingsPage.Page.OpenModal | pages/settings.tsx:31 | the button opens the modal |
| SettingsPage.Page.HandleAddService | pages/settings.tsx:10-24 | one connected entry is appended and no connection test runs |
| SettingsPage.Page.Deliver | pages/settings.tsx:94-98 | the modal's onAdd appends an entry; its onClose closes the modal |
| SettingsPage.Page.RemoveClicked | pages/settings.tsx:63 | the Remove button of row i filters the registry by that row's id: the list becomes exactly RemovedById of the old list, so the row leaves and every other entry keeps its order |
| SettingsPage.Page.NameEdited | pages/settings.tsx:78-80 | typing in row i's name input updates by that row's id: the row takes the new name, so does every entry sharing its id, and nothing else changes |
| QuickAIInput.Blocked | components/QuickAIInput.tsx:19 | the early return of handleSubmit and the disabled button: a blank message or a pending submission (characterised by BlockedIff) |
| QuickAIInput.BlockedIff | components/QuickAIInput.tsx:69 | submit is disabled iff the message is all whitespace or a submission is loading |
| QuickAIInput.QuickInput.constructor | components/QuickAIInput.tsx:13-15 | the box starts empty, idle and not listening |
| QuickAIInput.QuickInput.EditMessage | components/QuickAIInput.tsx:45 | typing sets only the message |
| QuickAIInput.QuickInput.Submit | components/QuickAIInput.tsx:17-22 | a blocked submit is a no-op; otherwise loading starts and the untrimmed message is sent |
| QuickAIInput.QuickInput.SubmitSettled | components/QuickAIInput.tsx:22-27 | loading ends either way; the message is cleared only when onSubmit resolved; a rejection is not caught and becomes the rejection of the handler itself |
| QuickAIInput.QuickInput.ToggleVoiceInput | components/QuickAIInput.tsx:30-32 | listening flips; nothing else changes |
| QuickAIInput.SubmitRoundTrip | components/QuickAIInput.tsx:17-28 | a second submit while the first is pending sends nothing; afterwards the box is idle, empty iff the first resolved; a rejection escapes the handler with its reason |
| QuickAIInput.ToggleTwice | components/QuickAIInput.tsx:30-32 | toggling voice input twice leaves the box as it was |
| EmailContext.NotificationsUpdated | contexts/EmailContext.tsx:121-129 | only the notifications section changes |
| EmailContext.SyncUpdated | contexts/EmailContext.tsx:131-139 | only the sync section changes |
| EmailContext.FiltersUpdated | contexts/EmailContext.tsx:141-149 | only the filters section changes |
| EmailContext.RuleAdded | contexts/EmailContext.tsx:151-159 | the rule is appended at the end whatever its id, and nothing else changes |
| EmailContext.RuleRemoved | contexts/EmailContext.tsx:161-169 | a rule survives iff its id differs, and nothing but the rule list changes |
| EmailContext.RuleUpdated | contexts/EmailContext.tsx:171-181 | same length; rules with the id are merged, all others are untouched in place |
| EmailContext.SettingsUpdated | contexts/EmailContext.tsx:114-119 | `{...prev, ...updates}` per top-level key (see SettingsReplaceSections) |
| EmailContext.SettingsReplaceSections | contexts/EmailContext.tsx:114-119 | updateSettings replaces a given section wholesale and keeps the others; the empty partial changes nothing |
| EmailContext.SectionMergesKeepOtherKeys | contexts/EmailContext.tsx:121-149 | a section update that sets only `enabled` changes that key and keeps the other keys of that section |
| EmailContext.SectionMergesPerKey | contexts/EmailContext.tsx:121-149 | for any partial section update, every key the partial leaves out keeps its old value and every key it sets takes the partial's value, in each of notifications, sync and filters |
| EmailContext.SectionUpdatesIdempotent | contexts/EmailContext.tsx:121-149 | each section update is idempotent, and its empty partial changes nothing |
| EmailContext.AddThenRemoveRule | contexts/EmailContext.tsx:151-169 | adding a rule and removing its id is removing that id from the original rules |
| EmailContext.RemoveRuleIdempotent | contexts/EmailContext.tsx:161-169 | removing twice is removing once, and removing an absent id changes nothing |
| EmailContext.RemoveRuleKeepsOrder | contexts/EmailContext.tsx:166 | removal keeps the surviving rules in their order |
| EmailContext.UpdateRuleIdempotent | contexts/EmailContext.tsx:171-181 | the same rule update applied twice equals applying it once |
| EmailContext.DefaultsHaveNoRules | contexts/EmailContext.tsx:74-77 | on the defaults, removing or updating a rule changes nothing |
| EmailContext.EmailStore.constructor | contexts/EmailContext.tsx:94-106 | settings start as the saved copy, or as the defaults when there is none |
| EmailContext.EmailStore.UpdateSettings | contexts/EmailContext.tsx:114-119 | the settings become the shallow merge |
| EmailContext.EmailStore.UpdateNotifications | contexts/EmailContext.tsx:121-129 | the settings become the notifications merge |
| EmailContext.EmailStore.UpdateSync | contexts/EmailContext.tsx:131-139 | the settings become the sync merge |
| EmailContext.EmailStore.UpdateFilters | contexts/EmailContext.tsx:141-149 | the settings become the filters merge |
| EmailContext.EmailStore.AddFilterRule | contexts/EmailContext.tsx:151-159 | the settings become the ones with the rule appended |
| EmailContext.EmailStore.RemoveFilterRule | contexts/EmailContext.tsx:161-169 | the settings become the ones with the rule removed |
| EmailContext.EmailStore.UpdateFilterRule | contexts/EmailContext.tsx:171-181 | the settings become the ones with the rule updated |
| AIContext.WithSlot | contexts/AIContext.tsx:79-85 | the named slot holds the new provider; the other slots are kept |
| AIContext.ProviderUpdated | contexts/AIContext.tsx:76-87 | the named slot takes the partial; the other three slots and all top-level fields are unchanged |
| AIContext.MergeProvider | contexts/AIContext.tsx:82-83 | `{...prev.providers[name], ...updates}` per key (its algebra is ProviderUpdateIdempotent and SlotNameCanDiffer) |
| AIContext.SettingsUpdated | contexts/AIContext.tsx:89-94 | `{...prev, ...updates}` per top-level key (see SettingsUpdateShallow) |
| AIContext.SlotsDetermineProviders | contexts/AIContext.tsx:11-16 | the providers object is determined by its four slots |
| AIContext.ProviderUpdateIdempotent | contexts/AIContext.tsx:80-84 | the same provider update twice equals once, and the empty partial leaves the settings equal |
| AIContext.ProviderUpdatesCommute | contexts/AIContext.tsx:76-87 | updates to different slots commute |
| AIContext.SlotNameCanDiffer | contexts/AIContext.tsx:81-84 | a partial carrying a name writes it into the slot, so a slot can hold another provider's name |
| AIContext.SettingsUpdateShallow | contexts/AIContext.tsx:89-94 | a given providers object replaces all four slots and the other top-level keys are kept |
| AIContext.DefaultSlotsNamedAfterThemselves | contexts/AIContext.tsx:28-51 | each default slot holds its own provider, with no API key, and only Ollama has an endpoint |
| AIContext.AIStore.constructor | contexts/AIContext.tsx:56-68 | settings start as the saved copy, or as the defaults when there is none |
| AIContext.AIStore.UpdateProvider | contexts/AIContext.tsx:76-87 | the settings become the provider update |
| AIContext.AIStore.UpdateSettings | contexts/AIContext.tsx:89-94 | the settings become the shallow merge |
| Catalogs.ModalPairsCatalogued | components/AddServiceModal.tsx:5-47 | every pair the modal offers has a credential form, except ai/grok |
| Catalogs.ModalProvidersTested | utils/serviceTests.ts:157-167 | every provider the modal offers has a test, except google_calendar and grok |
| Catalogs.GrokOfferedButUnsupported | components/AddServiceModal.tsx:13 | both wizards offer grok, which has no credential fields and no test |
| Catalogs.ModalLacksSmtp | components/AddServiceModal.tsx:24-31 | the modal never offers SMTP |
| Catalogs.SmtpOnlyOnCard | components/AddServiceCard.tsx:25 | the card offers SMTP, which has no credential fields but does have a test |

## Left out

- Network traffic: each `fetch` in `utils/serviceTests.ts` is reduced to its outcome (ok, not ok, or a transport error with a message). The request it would send is modelled by `ServiceTests.ProbeRequest`; the response body is never read by the source.
- Browser storage: loading and saving the settings in `localStorage` (`contexts/EmailContext.tsx:94-112`, `contexts/AIContext.tsx:56-74`). The stores take the parsed saved copy as an optional constructor argument (`None` for absent or unparsable). A saved copy is not validated by the source and is taken here as well-typed.
- Nondeterminism: the `Math.random()` id and the `new Date().toISOString()` timestamp are parameters (`newId`, `now`).
- ServiceCard.ProviderLabelShape: upper-casing covers ASCII letters only, not the Unicode case mapping of `toUpperCase`.
- JavaScript numbers (SMTP port, sync interval, maximum e-mail count) are unbounded integers; fractional values, `NaN` and infinities are not modelled.
- Credential values are strings. The source's tests take `credentials: any`, so a non-string value, such as a numeric port, is not modelled.
- Keys inherited from `Object.prototype` (a provider named `constructor`, say) would find a prototype member in `testFunctions` and `serviceConfigs`. The model treats those tables as plain maps.
- `updateSettings` with a partial nested section (an ill-typed call that TypeScript rejects) is not modelled: a present section is a whole section.
- ServiceCard's icon and gradient tables (`components/ServiceCard.tsx:12-33`) are indexed by `service.type`. An entry whose type is outside the five known ones renders an undefined icon component. Only the status-dependent parts of the card are modelled.
- The modal's `isOpen` prop only hides the modal; its state cells survive while it is closed. The model keeps the cells and leaves out rendering.
- Rendering, animation (framer-motion), CSS classes, and the context-provider guards that throw outside a provider.
- The provider SDK adapters (`lib/services/google-calendar.ts`, `lib/services/microsoft-graph.ts`), the OpenAI chat route (`pages/api/ai/chat.ts`), the calendar and activity-feed views, and the purely presentational components are not part of this model.
- The dialog's Cancel button and backdrop click only call `onClose`; they are not modelled separately.
- ServiceConfig.Dialog.TestSettled: builds the `onUpdate` call from the draft at settle time, where `handleTest` (`components/ServiceConfig.tsx:23-28`) spreads the draft its closure captured at the click. These agree because the as-written test settles in microtasks, before any further input event; an edit interleaved between the click and the settle is not modelled.
- The quick prompt box's `handleSubmit` (`components/QuickAIInput.tsx:22-27`) has `try`/`finally` and no `catch`, so a rejected `onSubmit` rejects the handler's own promise, which nothing awaits: an unhandled rejection. `QuickAIInput.QuickInput.SubmitSettled` returns that reason as `uncaught`; what the browser does with an unhandled rejection is not modelled.
- `Partial<Service>` also admits a required key set to `undefined` (`{name: undefined}`), which the spread would copy over the entry's value. `ServicesContext.ServicePatch` cannot express it for required keys; no caller in the repository passes such a partial.

## Findings

| source | as written | input that shows it | evidently intended | confidence | as-written member | corrected member |
|---|---|---|---|---|---|---|
| components/ServiceConfig.tsx:27-28 | `testService(service.type, service.provider, formData.credentials)` passes the type string as the whole service, so the tester looks up provider `undefined` and always answers "No test available for provider: undefined"; the result is then discarded and the entry is marked connected | any entry, e.g. provider "openai" with an invalid API key and a probe that is not ok: the entry is marked connected | test the entry's own provider with the draft's credentials, mark connected only on success, otherwise show the tester's message | not executed | ServiceConfig.AsWrittenMarksConnectedOnFailure | ServiceConfig.CorrectedConnectsIffTestPasses |
