/** The alerts panel: the alerts derived from a weather reading, the
    notification for a severe one, dismissal, and the badge colour and icon
    of an alert. A reading's numbers are whole numbers; a missing one
    (`undefined`/`null`) compares false and raises nothing. */
module WeatherAlerts {
  import opened Js

  datatype Reading = Reading(
    temperature: Option<int>,    // °C
    windSpeed: Option<int>,      // compared with a km/h threshold
    aqi: Option<int>,
    aqiDescription: string,
    uvIndex: Option<int>)

  /** The five alerts the panel can raise, by their ids. */
  datatype AlertId = ExtremeCold | ExtremeHeat | HighWind | PoorAir | HighUv

  function IdText(i: AlertId): string
  {
    match i
    case ExtremeCold => "temp-extreme-cold"
    case ExtremeHeat => "temp-extreme-heat"
    case HighWind => "wind-high"
    case PoorAir => "air-quality-poor"
    case HighUv => "uv-high"
  }

  datatype Severity = Low | Moderate | High | Extreme

  function SeverityText(s: Severity): string
  {
    match s
    case Low => "low"
    case Moderate => "moderate"
    case High => "high"
    case Extreme => "extreme"
  }

  datatype AlertType = Thunderstorm | RainType | WindType | TemperatureType | OtherType

  function TypeText(t: AlertType): string
  {
    match t
    case Thunderstorm => "thunderstorm"
    case RainType => "rain"
    case WindType => "wind"
    case TemperatureType => "temperature"
    case OtherType => "other"
  }

  /** An alert as the panel holds it (`isActive` is always true and the
      timestamp is left out). Its title follows from its id and its
      description from its id and `detail`, the reading's value the
      description quotes; see `Title` and `Description`. */
  datatype Alert = Alert(id: AlertId, severity: Severity, kind: AlertType, detail: string)

  function Title(id: AlertId): string
  {
    match id
    case ExtremeCold => "Extreme Cold Warning"
    case ExtremeHeat => "Extreme Heat Warning"
    case HighWind => "High Wind Warning"
    case PoorAir => "Poor Air Quality Alert"
    case HighUv => "High UV Index Alert"
  }

  function Description(a: Alert): string
  {
    match a.id
    case ExtremeCold => Concat(["Temperature is ", a.detail, "°C. Risk of frostbite and hypothermia."])
    case ExtremeHeat => Concat(["Temperature is ", a.detail, "°C. Risk of heat stroke and dehydration."])
    case HighWind => Concat(["Wind speeds of ", a.detail, " km/h. Avoid outdoor activities."])
    case PoorAir => Concat(["Air quality is ", a.detail, ". Consider staying indoors."])
    case HighUv => Concat(["UV Index is ", a.detail, ". Use strong sun protection."])
  }

  /** Every description quotes the reading's value. */
  lemma DescriptionQuotesDetail(a: Alert)
    ensures Includes(Description(a), a.detail)
  {
    match a.id
    case ExtremeCold => ConcatIncludes(["Temperature is ", a.detail, "°C. Risk of frostbite and hypothermia."], 1);
    case ExtremeHeat => ConcatIncludes(["Temperature is ", a.detail, "°C. Risk of heat stroke and dehydration."], 1);
    case HighWind => ConcatIncludes(["Wind speeds of ", a.detail, " km/h. Avoid outdoor activities."], 1);
    case PoorAir => ConcatIncludes(["Air quality is ", a.detail, ". Consider staying indoors."], 1);
    case HighUv => ConcatIncludes(["UV Index is ", a.detail, ". Use strong sun protection."], 1);
  }

  predicate Severe(a: Alert)
  {
    a.severity == Extreme || a.severity == High
  }

  function TemperatureAlerts(d: Reading): (r: seq<Alert>)
    ensures |r| <= 1
  {
    if d.temperature.Some? && d.temperature.value < -10 then
      [Alert(ExtremeCold, Extreme, TemperatureType, NumText(d.temperature.value))]
    else if d.temperature.Some? && d.temperature.value > 40 then
      [Alert(ExtremeHeat, Extreme, TemperatureType, NumText(d.temperature.value))]
    else []
  }

  function WindAlerts(d: Reading): (r: seq<Alert>)
    ensures |r| <= 1
  {
    if d.windSpeed.Some? && d.windSpeed.value > 50 then
      [Alert(HighWind, High, WindType, NumText(d.windSpeed.value))]
    else []
  }

  function AirAlerts(d: Reading): (r: seq<Alert>)
    ensures |r| <= 1
  {
    if d.aqi.Some? && d.aqi.value >= 4 then
      [Alert(PoorAir, High, OtherType, d.aqiDescription)]
    else []
  }

  function UvAlerts(d: Reading): (r: seq<Alert>)
    ensures |r| <= 1
  {
    if d.uvIndex.Some? && d.uvIndex.value > 8 then
      [Alert(HighUv, Moderate, OtherType, NumText(d.uvIndex.value))]
    else []
  }

  /** The alerts of a reading: temperature, wind, air, UV, in this order. */
  function AlertsFor(d: Reading): (r: seq<Alert>)
    ensures |r| <= 4
    ensures |r| == 0 <==>
              && !(d.temperature.Some? && (d.temperature.value < -10 || d.temperature.value > 40))
              && !(d.windSpeed.Some? && d.windSpeed.value > 50)
              && !(d.aqi.Some? && d.aqi.value >= 4)
              && !(d.uvIndex.Some? && d.uvIndex.value > 8)
  {
    TemperatureAlerts(d) + WindAlerts(d) + AirAlerts(d) + UvAlerts(d)
  }

  /** The position of an alert's id in the fixed order of the checks. */
  function Rank(id: AlertId): int
  {
    match id
    case ExtremeCold => 0
    case ExtremeHeat => 0
    case HighWind => 1
    case PoorAir => 2
    case HighUv => 3
  }

  /** Whether the alert with this id is among the reading's alerts. */
  predicate Raised(d: Reading, id: AlertId)
  {
    exists a :: a in AlertsFor(d) && a.id == id
  }

  /** The reading's alerts are those of the four checks. */
  lemma AlertsForMembers(d: Reading)
    ensures forall a :: a in AlertsFor(d) <==>
              a in TemperatureAlerts(d) || a in WindAlerts(d) || a in AirAlerts(d) || a in UvAlerts(d)
  {
  }

  /** Each temperature alert is raised exactly when its threshold is
      crossed; cold and heat exclude each other. */
  lemma TemperatureThresholds(d: Reading)
    ensures Raised(d, ExtremeCold) <==> d.temperature.Some? && d.temperature.value < -10
    ensures Raised(d, ExtremeHeat) <==> d.temperature.Some? && 40 < d.temperature.value
  {
    AlertsForMembers(d);
    var t := TemperatureAlerts(d);
    if t != [] { assert t[0] in AlertsFor(d); }
  }

  /** The wind, air and UV alerts are raised exactly when their thresholds
      are crossed. */
  lemma OtherThresholds(d: Reading)
    ensures Raised(d, HighWind) <==> d.windSpeed.Some? && d.windSpeed.value > 50
    ensures Raised(d, PoorAir) <==> d.aqi.Some? && d.aqi.value >= 4
    ensures Raised(d, HighUv) <==> d.uvIndex.Some? && d.uvIndex.value > 8
  {
    AlertsForMembers(d);
    var w, q, u := WindAlerts(d), AirAlerts(d), UvAlerts(d);
    if w != [] { assert w[0] in AlertsFor(d); }
    if q != [] { assert q[0] in AlertsFor(d); }
    if u != [] { assert u[0] in AlertsFor(d); }
  }

  /** The alerts come in the fixed order of the checks, so their ids are
      distinct and there are at most four. */
  lemma OrderedAndDistinct(d: Reading)
    ensures var a := AlertsFor(d);
            && |a| <= 4
            && (forall i, j :: 0 <= i < j < |a| ==> Rank(a[i].id) < Rank(a[j].id))
            && (forall i, j :: 0 <= i < j < |a| ==> a[i].id != a[j].id)
  {
    var t, w, q, u := TemperatureAlerts(d), WindAlerts(d), AirAlerts(d), UvAlerts(d);
    var a := AlertsFor(d);
    assert forall x :: x in t ==> Rank(x.id) == 0;
    assert forall x :: x in w ==> Rank(x.id) == 1;
    assert forall x :: x in q ==> Rank(x.id) == 2;
    assert forall x :: x in u ==> Rank(x.id) == 3;
    forall i, j | 0 <= i < j < |a| ensures Rank(a[i].id) < Rank(a[j].id) {
      RankAt(t, w, q, u, i);
      RankAt(t, w, q, u, j);
    }
  }

  /** Where position `i` of the four concatenated lists falls, and its rank. */
  lemma RankAt(t: seq<Alert>, w: seq<Alert>, q: seq<Alert>, u: seq<Alert>, i: int)
    requires |t| <= 1 && |w| <= 1 && |q| <= 1 && |u| <= 1
    requires forall x :: x in t ==> Rank(x.id) == 0
    requires forall x :: x in w ==> Rank(x.id) == 1
    requires forall x :: x in q ==> Rank(x.id) == 2
    requires forall x :: x in u ==> Rank(x.id) == 3
    requires 0 <= i < |t + w + q + u|
    ensures Rank((t + w + q + u)[i].id) ==
            if i < |t| then 0 else if i < |t| + |w| then 1 else if i < |t| + |w| + |q| then 2 else 3
    ensures Rank((t + w + q + u)[i].id) >= i
  {
    var a := t + w + q + u;
    if i < |t| {
      assert a[i] == t[i];
    } else if i < |t| + |w| {
      assert a[i] == w[i - |t|];
    } else if i < |t| + |w| + |q| {
      assert a[i] == q[i - |t| - |w|];
    } else {
      assert a[i] == u[i - |t| - |w| - |q|];
    }
  }

  /** `generateAlerts`: the new alert list, and the alert sent as a browser
      notification, if any. */
  method GenerateAlerts(d: Reading, notificationsEnabled: bool) returns (alerts: seq<Alert>, notified: Option<Alert>)
    ensures alerts == AlertsFor(d)
    ensures notified.Some? <==> notificationsEnabled && exists a :: a in alerts && Severe(a)
    ensures notified.Some? ==> |alerts| > 0 && notified.value == alerts[0]
  {
    alerts := [];
    if d.temperature.Some? && d.temperature.value < -10 {
      alerts := alerts + [Alert(ExtremeCold, Extreme, TemperatureType, NumText(d.temperature.value))];
    } else if d.temperature.Some? && d.temperature.value > 40 {
      alerts := alerts + [Alert(ExtremeHeat, Extreme, TemperatureType, NumText(d.temperature.value))];
    }
    assert alerts == TemperatureAlerts(d);
    if d.windSpeed.Some? && d.windSpeed.value > 50 {
      alerts := alerts + [Alert(HighWind, High, WindType, NumText(d.windSpeed.value))];
    }
    assert alerts == TemperatureAlerts(d) + WindAlerts(d);
    if d.aqi.Some? && d.aqi.value >= 4 {
      alerts := alerts + [Alert(PoorAir, High, OtherType, d.aqiDescription)];
    }
    assert alerts == TemperatureAlerts(d) + WindAlerts(d) + AirAlerts(d);
    if d.uvIndex.Some? && d.uvIndex.value > 8 {
      alerts := alerts + [Alert(HighUv, Moderate, OtherType, NumText(d.uvIndex.value))];
    }
    var severe := AnySevere(alerts);
    if notificationsEnabled && severe {
      notified := Some(alerts[0]);
    } else {
      notified := None;
    }
  }

  /** `alerts.some(alert => alert.severity === 'extreme' || alert.severity === 'high')`. */
  method AnySevere(alerts: seq<Alert>) returns (found: bool)
    ensures found <==> exists a :: a in alerts && Severe(a)
  {
    found := false;
    var i := 0;
    while i < |alerts| && !found
      invariant 0 <= i <= |alerts|
      invariant found <==> exists k :: 0 <= k < i && Severe(alerts[k])
    {
      found := Severe(alerts[i]);
      i := i + 1;
    }
  }

  /** A notification always carries a severe alert: the first alert is
      severe whenever any is, because the only moderate one (UV) comes last. */
  lemma NotifiedAlertIsSevere(d: Reading)
    requires exists a :: a in AlertsFor(d) && Severe(a)
    ensures Severe(AlertsFor(d)[0])
  {
    var t, w, q, u := TemperatureAlerts(d), WindAlerts(d), AirAlerts(d), UvAlerts(d);
    var a := AlertsFor(d);
    if t == [] && w == [] && q == [] {
      assert a == u;
    }
  }

  /** The wind threshold is in km/h but the Express endpoint reports metres
      per second: a 20 m/s wind (72 km/h) raises no alert, and no wind below
      51 m/s (over 180 km/h) does. */
  lemma MetresPerSecondUnderAlerted(d: Reading)
    requires d.windSpeed.Some? && 14 <= d.windSpeed.value <= 50
    ensures d.windSpeed.value * 36 > 500    // more than 50 km/h
    ensures !Raised(d, HighWind)
  {
    OtherThresholds(d);
  }

  /** Distinct alerts have distinct id texts, so comparing the ids of
      displayed alerts (the only ids the dismiss buttons pass) is comparing
      their texts. */
  lemma IdTextInjective(i: AlertId, j: AlertId)
    requires IdText(i) == IdText(j)
    ensures i == j
  {
  }

  /** `dismissAlert`: the alerts with any other id, in order. */
  function Dismiss(alerts: seq<Alert>, id: AlertId): (r: seq<Alert>)
    ensures |r| <= |alerts|
    ensures forall j :: 0 <= j < |r| ==> r[j].id != id
  {
    if alerts == [] then []
    else Dismiss(alerts[..|alerts| - 1], id) + (if alerts[|alerts| - 1].id != id then [alerts[|alerts| - 1]] else [])
  }

  /** An alert remains exactly when it was there and has another id; the
      filter keeps order (it distributes over concatenation); an absent id
      changes nothing. */
  lemma {:induction false} DismissMembers(alerts: seq<Alert>, id: AlertId)
    ensures forall a :: a in Dismiss(alerts, id) <==> a in alerts && a.id != id
  {
    if alerts != [] {
      var init := alerts[..|alerts| - 1];
      DismissMembers(init, id);
      assert alerts == init + [alerts[|alerts| - 1]];
    }
  }

  lemma {:induction false} DismissAbsent(alerts: seq<Alert>, id: AlertId)
    requires forall a :: a in alerts ==> a.id != id
    ensures Dismiss(alerts, id) == alerts
  {
    if alerts != [] {
      var init := alerts[..|alerts| - 1];
      DismissAbsent(init, id);
      assert alerts == init + [alerts[|alerts| - 1]];
    }
  }

  lemma {:induction false} DismissAppend(a: seq<Alert>, b: seq<Alert>, id: AlertId)
    ensures Dismiss(a + b, id) == Dismiss(a, id) + Dismiss(b, id)
    decreases |b|
  {
    if b == [] {
      assert a + b == a;
    } else {
      var b' := b[..|b| - 1];
      assert (a + b)[..|a + b| - 1] == a + b';
      DismissAppend(a, b', id);
    }
  }

  /** `getSeverityColor`. */
  function SeverityColor(severity: string): (c: string)
    ensures c == "destructive" <==> severity == "extreme" || severity == "high"
    ensures c == "secondary" <==> severity == "moderate"
    ensures c == "outline" <==> severity != "extreme" && severity != "high" && severity != "moderate"
  {
    match severity
    case "extreme" => "destructive"
    case "high" => "destructive"
    case "moderate" => "secondary"
    case "low" => "outline"
    case _ => "outline"
  }

  /** The icons of `getAlertIcon`. */
  datatype Icon = Zap | Cloud | WindIcon | AlertTriangle | Info

  function AlertIcon(kind: string): (i: Icon)
    ensures i == Info <==> kind !in {"thunderstorm", "rain", "wind", "temperature"}
  {
    match kind
    case "thunderstorm" => Zap
    case "rain" => Cloud
    case "wind" => WindIcon
    case "temperature" => AlertTriangle
    case _ => Info
  }

  /** On the generated alerts the badge is red exactly for the severe ones
      and grey for the UV alert, and the icon is the triangle for
      temperature, the wind icon for wind, and the info icon otherwise. */
  lemma GeneratedBadges(d: Reading)
    ensures forall a :: a in AlertsFor(d) ==>
              (SeverityColor(SeverityText(a.severity)) == "destructive" <==> Severe(a))
              && (SeverityColor(SeverityText(a.severity)) == "secondary" <==> a.id == HighUv)
              && AlertIcon(TypeText(a.kind)) == (if Rank(a.id) == 0 then AlertTriangle else if Rank(a.id) == 1 then WindIcon else Info)
  {
    forall a | a in AlertsFor(d)
      ensures (SeverityColor(SeverityText(a.severity)) == "destructive" <==> Severe(a))
              && (SeverityColor(SeverityText(a.severity)) == "secondary" <==> a.id == HighUv)
              && AlertIcon(TypeText(a.kind)) == (if Rank(a.id) == 0 then AlertTriangle else if Rank(a.id) == 1 then WindIcon else Info)
    {
      Generated(d, a);
      Badge(a);
    }
  }

  /** The badge and icon of an alert whose severity and type are those of
      its id's section. */
  lemma Badge(a: Alert)
    requires a.id in {ExtremeCold, ExtremeHeat} ==> a.severity == Extreme && a.kind == TemperatureType
    requires a.id == HighWind ==> a.severity == High && a.kind == WindType
    requires a.id == PoorAir ==> a.severity == High && a.kind == OtherType
    requires a.id == HighUv ==> a.severity == Moderate && a.kind == OtherType
    ensures SeverityColor(SeverityText(a.severity)) == "destructive" <==> Severe(a)
    ensures SeverityColor(SeverityText(a.severity)) == "secondary" <==> a.id == HighUv
    ensures AlertIcon(TypeText(a.kind)) == (if Rank(a.id) == 0 then AlertTriangle else if Rank(a.id) == 1 then WindIcon else Info)
  {
  }

  /** The id, severity and type of each generated alert. */
  lemma Generated(d: Reading, a: Alert)
    requires a in AlertsFor(d)
    ensures a.id in {ExtremeCold, ExtremeHeat} ==> a.severity == Extreme && a.kind == TemperatureType
    ensures a.id == HighWind ==> a.severity == High && a.kind == WindType
    ensures a.id == PoorAir ==> a.severity == High && a.kind == OtherType
    ensures a.id == HighUv ==> a.severity == Moderate && a.kind == OtherType
  {
    AlertsForMembers(d);
    if a in TemperatureAlerts(d) {
    } else if a in WindAlerts(d) {
    } else if a in AirAlerts(d) {
    } else {
      assert a in UvAlerts(d);
    }
  }
}
