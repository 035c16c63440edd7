/** The email settings store: one settings record, initialised from a saved copy or the
    defaults, changed by a shallow top-level merge, three per-section merges, and append,
    remove-by-id and update-by-id on the filter rules. */
module EmailContext {
  import opened JsRuntime
  import IdLists

  datatype EmailProvider = Gmail | Outlook | Smtp

  /** `SMTPConfig`; `port` is a JavaScript number, taken here as an integer. */
  datatype SmtpConfig = SmtpConfig(host: string, port: int, secure: bool, username: string, password: string)

  datatype Frequency = Realtime | Batched | Manual

  datatype QuietHours = QuietHours(enabled: bool, start: string, end: string)

  datatype Notifications = Notifications(
    enabled: bool,
    desktop: bool,
    sound: bool,
    frequency: Frequency,
    quietHours: QuietHours)

  /** `sync`; `interval` is in minutes. */
  datatype Sync = Sync(enabled: bool, interval: int, folders: seq<string>, maxEmails: int)

  datatype ConditionField = Subject | From | To | Body

  datatype Operator = Contains | NotContains | Equals | NotEquals

  datatype Condition = Condition(field: ConditionField, operator: Operator, value: string)

  datatype ActionKind = Move | Mark | Forward | Delete

  /** A rule action; the source's `type` key is called `actionType` here. */
  datatype Action = Action(actionType: ActionKind, value: string)

  datatype Rule = Rule(id: string, name: string, conditions: seq<Condition>, actions: seq<Action>)

  datatype Filters = Filters(enabled: bool, rules: seq<Rule>)

  datatype EmailSettings = EmailSettings(
    provider: EmailProvider,
    email: string,
    clientId: Option<string>,
    clientSecret: Option<string>,
    smtpConfig: Option<SmtpConfig>,
    notifications: Notifications,
    sync: Sync,
    filters: Filters)

  /** `defaultSettings`: Gmail with no address, every notification on in real time with quiet
      hours 22:00 to 07:00 switched off, sync every 5 minutes of INBOX, Sent and Drafts up to
      1000 messages, and filtering off with no rules. */
  const DefaultSettings := EmailSettings(
    Gmail, "", None, None, None,
    Notifications(true, true, true, Realtime, QuietHours(false, "22:00", "07:00")),
    Sync(true, 5, ["INBOX", "Sent", "Drafts"], 1000),
    Filters(false, []))

  /** A `Partial<EmailSettings>`: `None` leaves the key out; a present section replaces the
      whole sub-object. For the optional keys `Some(None)` is a key set to undefined. */
  datatype SettingsPatch = SettingsPatch(
    provider: Option<EmailProvider>,
    email: Option<string>,
    clientId: Option<Option<string>>,
    clientSecret: Option<Option<string>>,
    smtpConfig: Option<Option<SmtpConfig>>,
    notifications: Option<Notifications>,
    sync: Option<Sync>,
    filters: Option<Filters>)

  const NoSettingsChanges := SettingsPatch(None, None, None, None, None, None, None, None)

  datatype NotificationsPatch = NotificationsPatch(
    enabled: Option<bool>,
    desktop: Option<bool>,
    sound: Option<bool>,
    frequency: Option<Frequency>,
    quietHours: Option<QuietHours>)

  const NoNotificationsChanges := NotificationsPatch(None, None, None, None, None)

  datatype SyncPatch = SyncPatch(
    enabled: Option<bool>,
    interval: Option<int>,
    folders: Option<seq<string>>,
    maxEmails: Option<int>)

  const NoSyncChanges := SyncPatch(None, None, None, None)

  datatype FiltersPatch = FiltersPatch(enabled: Option<bool>, rules: Option<seq<Rule>>)

  const NoFiltersChanges := FiltersPatch(None, None)

  datatype RulePatch = RulePatch(
    id: Option<string>,
    name: Option<string>,
    conditions: Option<seq<Condition>>,
    actions: Option<seq<Action>>)

  /** `{ ...prev, ...updates }` on the whole record. */
  function SettingsUpdated(s: EmailSettings, p: SettingsPatch): EmailSettings {
    EmailSettings(
      p.provider.GetOr(s.provider),
      p.email.GetOr(s.email),
      p.clientId.GetOr(s.clientId),
      p.clientSecret.GetOr(s.clientSecret),
      p.smtpConfig.GetOr(s.smtpConfig),
      p.notifications.GetOr(s.notifications),
      p.sync.GetOr(s.sync),
      p.filters.GetOr(s.filters))
  }

  function MergeNotifications(n: Notifications, p: NotificationsPatch): Notifications {
    Notifications(
      p.enabled.GetOr(n.enabled),
      p.desktop.GetOr(n.desktop),
      p.sound.GetOr(n.sound),
      p.frequency.GetOr(n.frequency),
      p.quietHours.GetOr(n.quietHours))
  }

  function MergeSync(y: Sync, p: SyncPatch): Sync {
    Sync(p.enabled.GetOr(y.enabled), p.interval.GetOr(y.interval), p.folders.GetOr(y.folders),
         p.maxEmails.GetOr(y.maxEmails))
  }

  function MergeFilters(f: Filters, p: FiltersPatch): Filters {
    Filters(p.enabled.GetOr(f.enabled), p.rules.GetOr(f.rules))
  }

  function MergeRule(r: Rule, p: RulePatch): Rule {
    Rule(p.id.GetOr(r.id), p.name.GetOr(r.name), p.conditions.GetOr(r.conditions), p.actions.GetOr(r.actions))
  }

  function RuleId(r: Rule): string { r.id }

  /** `updateNotifications`: only the notifications section changes. */
  function NotificationsUpdated(s: EmailSettings, p: NotificationsPatch): (r: EmailSettings)
    ensures r.(notifications := s.notifications) == s
  {
    s.(notifications := MergeNotifications(s.notifications, p))
  }

  /** `updateSync`: only the sync section changes. */
  function SyncUpdated(s: EmailSettings, p: SyncPatch): (r: EmailSettings)
    ensures r.(sync := s.sync) == s
  {
    s.(sync := MergeSync(s.sync, p))
  }

  /** `updateFilters`: only the filters section changes. */
  function FiltersUpdated(s: EmailSettings, p: FiltersPatch): (r: EmailSettings)
    ensures r.(filters := s.filters) == s
  {
    s.(filters := MergeFilters(s.filters, p))
  }

  /** `addFilterRule`: the rule goes last, whatever its id; nothing else changes. */
  function RuleAdded(s: EmailSettings, rule: Rule): (r: EmailSettings)
    ensures r.filters.rules == s.filters.rules + [rule]
    ensures r.(filters := s.filters.(rules := r.filters.rules)) == r
    ensures r.(filters := r.filters.(rules := s.filters.rules)) == s
  {
    s.(filters := s.filters.(rules := s.filters.rules + [rule]))
  }

  /** `removeFilterRule`: every rule with the id goes, every other rule stays; nothing but the
      rule list changes. */
  function RuleRemoved(s: EmailSettings, id: string): (r: EmailSettings)
    ensures forall x :: x in r.filters.rules <==> x in s.filters.rules && x.id != id
    ensures r.(filters := r.filters.(rules := s.filters.rules)) == s
  {
    s.(filters := s.filters.(rules := IdLists.RemoveById(s.filters.rules, RuleId, id)))
  }

  /** `updateFilterRule`: the rules with the id take the partial, the rest are untouched, in
      the same positions; nothing but the rule list changes. */
  function RuleUpdated(s: EmailSettings, id: string, p: RulePatch): (r: EmailSettings)
    ensures |r.filters.rules| == |s.filters.rules|
    ensures forall i :: 0 <= i < |s.filters.rules| ==>
              r.filters.rules[i] == if s.filters.rules[i].id == id then MergeRule(s.filters.rules[i], p)
                                    else s.filters.rules[i]
    ensures r.(filters := r.filters.(rules := s.filters.rules)) == s
  {
    s.(filters := s.filters.(rules := IdLists.UpdateById(s.filters.rules, RuleId, id, x => MergeRule(x, p))))
  }

  /** `updateSettings` replaces a given section wholesale: keys of the old section that the
      new one does not repeat are lost, unlike with the per-section update, which keeps them. */
  lemma SettingsReplaceSections(s: EmailSettings, n: Notifications, y: Sync, f: Filters)
    ensures SettingsUpdated(s, NoSettingsChanges.(notifications := Some(n))) == s.(notifications := n)
    ensures SettingsUpdated(s, NoSettingsChanges.(sync := Some(y))) == s.(sync := y)
    ensures SettingsUpdated(s, NoSettingsChanges.(filters := Some(f))) == s.(filters := f)
    ensures SettingsUpdated(s, NoSettingsChanges) == s
  {
  }

  /** A per-section update that sets only `enabled` keeps the rest of that section. */
  lemma SectionMergesKeepOtherKeys(s: EmailSettings, b: bool)
    ensures NotificationsUpdated(s, NoNotificationsChanges.(enabled := Some(b))).notifications
            == s.notifications.(enabled := b)
    ensures SyncUpdated(s, NoSyncChanges.(enabled := Some(b))).sync == s.sync.(enabled := b)
    ensures FiltersUpdated(s, NoFiltersChanges.(enabled := Some(b))).filters == s.filters.(enabled := b)
  {
  }

  /** A per-section update with any partial: each key the partial leaves out keeps its old
      value, and each key it sets takes the partial's value. */
  lemma SectionMergesPerKey(s: EmailSettings, n: NotificationsPatch, y: SyncPatch, f: FiltersPatch)
    ensures n.enabled.None? ==> NotificationsUpdated(s, n).notifications.enabled == s.notifications.enabled
    ensures n.enabled.Some? ==> NotificationsUpdated(s, n).notifications.enabled == n.enabled.value
    ensures n.desktop.None? ==> NotificationsUpdated(s, n).notifications.desktop == s.notifications.desktop
    ensures n.desktop.Some? ==> NotificationsUpdated(s, n).notifications.desktop == n.desktop.value
    ensures n.sound.None? ==> NotificationsUpdated(s, n).notifications.sound == s.notifications.sound
    ensures n.sound.Some? ==> NotificationsUpdated(s, n).notifications.sound == n.sound.value
    ensures n.frequency.None? ==> NotificationsUpdated(s, n).notifications.frequency == s.notifications.frequency
    ensures n.frequency.Some? ==> NotificationsUpdated(s, n).notifications.frequency == n.frequency.value
    ensures n.quietHours.None? ==> NotificationsUpdated(s, n).notifications.quietHours == s.notifications.quietHours
    ensures n.quietHours.Some? ==> NotificationsUpdated(s, n).notifications.quietHours == n.quietHours.value
    ensures y.enabled.None? ==> SyncUpdated(s, y).sync.enabled == s.sync.enabled
    ensures y.enabled.Some? ==> SyncUpdated(s, y).sync.enabled == y.enabled.value
    ensures y.interval.None? ==> SyncUpdated(s, y).sync.interval == s.sync.interval
    ensures y.interval.Some? ==> SyncUpdated(s, y).sync.interval == y.interval.value
    ensures y.folders.None? ==> SyncUpdated(s, y).sync.folders == s.sync.folders
    ensures y.folders.Some? ==> SyncUpdated(s, y).sync.folders == y.folders.value
    ensures y.maxEmails.None? ==> SyncUpdated(s, y).sync.maxEmails == s.sync.maxEmails
    ensures y.maxEmails.Some? ==> SyncUpdated(s, y).sync.maxEmails == y.maxEmails.value
    ensures f.enabled.None? ==> FiltersUpdated(s, f).filters.enabled == s.filters.enabled
    ensures f.enabled.Some? ==> FiltersUpdated(s, f).filters.enabled == f.enabled.value
    ensures f.rules.None? ==> FiltersUpdated(s, f).filters.rules == s.filters.rules
    ensures f.rules.Some? ==> FiltersUpdated(s, f).filters.rules == f.rules.value
  {
  }

  /** Each section update is idempotent, and the empty partial changes nothing. */
  lemma SectionUpdatesIdempotent(s: EmailSettings, n: NotificationsPatch, y: SyncPatch, f: FiltersPatch)
    ensures NotificationsUpdated(NotificationsUpdated(s, n), n) == NotificationsUpdated(s, n)
    ensures SyncUpdated(SyncUpdated(s, y), y) == SyncUpdated(s, y)
    ensures FiltersUpdated(FiltersUpdated(s, f), f) == FiltersUpdated(s, f)
    ensures NotificationsUpdated(s, NoNotificationsChanges) == s
    ensures SyncUpdated(s, NoSyncChanges) == s
    ensures FiltersUpdated(s, NoFiltersChanges) == s
  {
  }

  /** Adding a rule and removing its id drops it again, with every earlier rule that had the
      same id: ids are not checked for uniqueness. */
  lemma AddThenRemoveRule(s: EmailSettings, rule: Rule)
    ensures RuleRemoved(RuleAdded(s, rule), rule.id) == RuleRemoved(s, rule.id)
  {
    IdLists.RemoveByIdAppend(s.filters.rules, [rule], RuleId, rule.id);
    assert IdLists.RemoveById([rule], RuleId, rule.id) == [];
  }

  /** Removing the same id twice is removing it once; removing an absent id changes nothing. */
  lemma RemoveRuleIdempotent(s: EmailSettings, id: string)
    ensures RuleRemoved(RuleRemoved(s, id), id) == RuleRemoved(s, id)
    ensures (forall x :: x in s.filters.rules ==> x.id != id) ==> RuleRemoved(s, id) == s
  {
    IdLists.RemoveByIdIdempotent(s.filters.rules, RuleId, id);
    if forall x :: x in s.filters.rules ==> x.id != id {
      IdLists.RemoveAbsentId(s.filters.rules, RuleId, id);
    }
  }

  /** Removing keeps the surviving rules in their order. */
  lemma RemoveRuleKeepsOrder(s: EmailSettings, a: seq<Rule>, b: seq<Rule>, id: string)
    requires s.filters.rules == a + b
    ensures RuleRemoved(s, id).filters.rules
            == RuleRemoved(s.(filters := s.filters.(rules := a)), id).filters.rules
             + RuleRemoved(s.(filters := s.filters.(rules := b)), id).filters.rules
  {
    IdLists.RemoveByIdAppend(a, b, RuleId, id);
  }

  /** Updating the same rule twice with the same partial is updating it once. */
  lemma UpdateRuleIdempotent(s: EmailSettings, id: string, p: RulePatch)
    ensures RuleUpdated(RuleUpdated(s, id, p), id, p) == RuleUpdated(s, id, p)
  {
    var f := (x: Rule) => MergeRule(x, p);
    IdLists.UpdateByIdIdempotent(s.filters.rules, RuleId, id, f);
  }

  /** The defaults hold no rule, so removing or updating a rule leaves them as they are. */
  lemma DefaultsHaveNoRules(id: string, p: RulePatch)
    ensures RuleRemoved(DefaultSettings, id) == DefaultSettings
    ensures RuleUpdated(DefaultSettings, id, p) == DefaultSettings
  {
  }

  /** The settings state cell. */
  class EmailStore {
    var settings: EmailSettings

    /** `saved` is the parsed saved copy, or `None` when there is none or it does not parse. */
    constructor (saved: Option<EmailSettings>)
      ensures settings == saved.GetOr(DefaultSettings)
    {
      settings := saved.GetOr(DefaultSettings);
    }

    method UpdateSettings(updates: SettingsPatch)
      modifies this
      ensures settings == SettingsUpdated(old(settings), updates)
    {
      settings := SettingsUpdated(settings, updates);
    }

    method UpdateNotifications(updates: NotificationsPatch)
      modifies this
      ensures settings == NotificationsUpdated(old(settings), updates)
    {
      settings := NotificationsUpdated(settings, updates);
    }

    method UpdateSync(updates: SyncPatch)
      modifies this
      ensures settings == SyncUpdated(old(settings), updates)
    {
      settings := SyncUpdated(settings, updates);
    }

    method UpdateFilters(updates: FiltersPatch)
      modifies this
      ensures settings == FiltersUpdated(old(settings), updates)
    {
      settings := FiltersUpdated(settings, updates);
    }

    method AddFilterRule(rule: Rule)
      modifies this
      ensures settings == RuleAdded(old(settings), rule)
    {
      settings := RuleAdded(settings, rule);
    }

    method RemoveFilterRule(id: string)
      modifies this
      ensures settings == RuleRemoved(old(settings), id)
    {
      settings := RuleRemoved(settings, id);
    }

    method UpdateFilterRule(id: string, updates: RulePatch)
      modifies this
      ensures settings == RuleUpdated(old(settings), id, updates)
    {
      settings := RuleUpdated(settings, id, updates);
    }
  }
}
