/** The per-service card: its provider label and the status-dependent indicators. */
module ServiceCard {
  import opened JsRuntime
  import opened ServicesContext

  /** `provider.charAt(0).toUpperCase() + provider.slice(1).replace('_', ' ')`, with ASCII
      case mapping. */
  function ProviderLabel(provider: string): (text: string)
    ensures |text| == |provider|
    ensures provider != [] ==> text[0] == UpperAscii(provider[0])
  {
    if provider == [] then [] else [UpperAscii(provider[0])] + ReplaceFirst(provider[1..], '_', ' ')
  }

  /** The label keeps the provider's length; its first character is the provider's, upper-cased;
      after it, only the first underscore past position 0 becomes a space. */
  lemma ProviderLabelShape(provider: string)
    ensures |ProviderLabel(provider)| == |provider|
    ensures provider == [] ==> ProviderLabel(provider) == []
    ensures provider != [] ==> ProviderLabel(provider)[0] == UpperAscii(provider[0])
    ensures forall i :: 1 <= i < |provider| ==>
              ProviderLabel(provider)[i]
              == (if i == 1 + IndexOf(provider[1..], '_') then ' ' else provider[i])
  {
    if provider != [] {
      var rest := provider[1..];
      ReplaceFirstPointwise(rest, '_', ' ');
      forall i | 1 <= i < |provider|
        ensures ProviderLabel(provider)[i] == (if i == 1 + IndexOf(rest, '_') then ' ' else provider[i])
      {
        assert ProviderLabel(provider)[i] == ReplaceFirst(rest, '_', ' ')[i - 1];
        assert rest[i - 1] == provider[i];
      }
    }
  }

  /** A provider `c + a + "_" + b`, with no underscore in `a`, is shown as the upper-cased `c`,
      then `a`, a space and `b` unchanged. */
  lemma LabelSplitsAtFirstUnderscore(c: char, a: string, b: string)
    requires '_' !in a
    ensures ProviderLabel([c] + a + "_" + b) == [UpperAscii(c)] + a + " " + b
  {
    var provider := [c] + a + "_" + b;
    assert provider[1..] == a + "_" + b;
    ReplaceFirstSplit(a, b);
  }

  lemma ReplaceFirstSplit(a: string, b: string)
    requires '_' !in a
    ensures ReplaceFirst(a + "_" + b, '_', ' ') == a + " " + b
  {
    var s := a + "_" + b;
    var k := IndexOf(s, '_');
    assert s[|a|] == '_';
    assert forall j :: 0 <= j < |a| ==> s[j] == a[j];
    assert k == |a|;
    assert s[..k] == a && s[k + 1..] == b;
  }

  /** google_calendar is shown as "Google calendar". */
  lemma GoogleCalendarLabel(provider: string)
    requires provider == "google_calendar"
    ensures ProviderLabel(provider) == "Google calendar"
  {
    assert provider == ['g'] + "oogle" + "_" + "calendar";
    LabelSplitsAtFirstUnderscore('g', "oogle", "calendar");
    assert UpperAscii('g') == 'G';
    CalendarLabelText();
  }

  lemma CalendarLabelText()
    ensures "Google calendar" == ['G'] + "oogle" + " " + "calendar"
  {
  }

  /** Only the first underscore is replaced: a_b_c is shown as "A b_c". */
  lemma OnlyFirstUnderscore()
    ensures ProviderLabel("a_b_c") == "A b_c"
  {
    LabelSplitsAtFirstUnderscore('a', "", "b_c");
    assert ['a'] + "" + "_" + "b_c" == "a_b_c";
  }

  /** A leading underscore is never replaced: _x_y is shown as "_x y". */
  lemma LeadingUnderscoreKept()
    ensures ProviderLabel("_x_y") == "_x y"
  {
    LabelSplitsAtFirstUnderscore('_', "x", "y");
    assert ['_'] + "x" + "_" + "y" == "_x_y";
  }

  /** `statusColors[service.status]`: the card's table has no entry for pending. */
  function StatusColor(status: Status): (color: Option<string>)
    ensures color.None? <==> status == Pending
  {
    match status
    case Connected => Some("text-green-500")
    case Disconnected => Some("text-gray-400")
    case Error => Some("text-red-500")
    case Configuring => Some("text-blue-500")
    case Pending => None
  }

  /** Which optional parts of the card are rendered. */
  datatype Indicators = Indicators(checkIcon: bool, alertIcon: bool, lastSyncLine: bool, errorBanner: bool)

  function IndicatorsOf(service: Service): (shown: Indicators)
    ensures shown.checkIcon <==> service.status == Connected
    ensures shown.alertIcon <==> service.status == Error
    ensures !(shown.checkIcon && shown.alertIcon)
    ensures shown.lastSyncLine <==> service.lastSync.Some? && service.lastSync.value != ""
    ensures shown.errorBanner <==> service.error.Some? && service.error.value != ""
  {
    Indicators(service.status == Connected, service.status == Error, Truthy(service.lastSync), Truthy(service.error))
  }

  /** The check and alert icons never show together, and each follows its status exactly; the
      error banner and the last-synced line follow their own fields and are independent of the
      status. */
  lemma IndicatorsExclusive(service: Service, st: Status)
    ensures !(IndicatorsOf(service).checkIcon && IndicatorsOf(service).alertIcon)
    ensures IndicatorsOf(service.(status := st)).checkIcon <==> st == Connected
    ensures IndicatorsOf(service.(status := st)).alertIcon <==> st == Error
    ensures IndicatorsOf(service.(status := st)).lastSyncLine == IndicatorsOf(service).lastSyncLine
    ensures IndicatorsOf(service.(status := st)).errorBanner == IndicatorsOf(service).errorBanner
    ensures IndicatorsOf(service.(status := Connected)).checkIcon
    ensures !IndicatorsOf(service.(status := Pending)).checkIcon && !IndicatorsOf(service.(status := Pending)).alertIcon
  {
  }

  /** Where a click on the card lands. */
  datatype ClickTarget = TrashButton | CardBody

  /** The callbacks a click invokes. */
  datatype CardEvent = OnSelect | OnRemove

  /** The trash button stops propagation, so it removes without selecting; anywhere else the
      card is selected and nothing is removed. */
  function Clicked(target: ClickTarget): (events: seq<CardEvent>)
    ensures OnRemove in events <==> target == TrashButton
    ensures OnSelect in events <==> target == CardBody
    ensures |events| == 1
  {
    match target
    case TrashButton => [OnRemove]
    case CardBody => [OnSelect]
  }
}
