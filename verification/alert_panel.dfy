/**
 * The system-alerts card. Its list is React state seeded once, at mount,
 * from the first `maxAlerts` alerts the hook holds; later hook data does not
 * reach it. Each alert shows a severity-coloured row, a relative time and a
 * dismiss button; an auto-dismiss effect schedules a timer per alert.
 *
 * As with the trade history, the alerts are the parsed JSON objects.
 */
module AlertPanel {
  import opened Wrappers
  import opened Json
  import opened Text
  import opened MockTypes
  import opened Wire
  import opened Seqs
  import Paging

  /** The `maxAlerts` prop's default. */
  const DefaultMaxAlerts := 5

  /** `(data || []).slice(0, maxAlerts)`; a negative bound counts back from the end, as `slice` does. */
  function InitialAlerts(data: Option<seq<Json>>, maxAlerts: Option<int>): (r: seq<Json>)
    ensures data.None? ==> r == []
    ensures var all := data.GetOr([]);
      var m := maxAlerts.GetOr(DefaultMaxAlerts);
      && (0 <= m ==> r == all[..if m <= |all| then m else |all|])
      && (m < 0 ==> r == all[..if |all| + m < 0 then 0 else |all| + m])
  {
    Paging.Slice(data.GetOr([]), 0, maxAlerts.GetOr(DefaultMaxAlerts))
  }

  /** Without the prop the card keeps at most the first five alerts, in order. */
  lemma DefaultKeepsFirstFive(alerts: seq<Json>)
    ensures |InitialAlerts(Some(alerts), None)| == if |alerts| < 5 then |alerts| else 5
    ensures forall i :: 0 <= i < |InitialAlerts(Some(alerts), None)| ==> InitialAlerts(Some(alerts), None)[i] == alerts[i]
  {
  }

  /**
   * `dismissAlert(id)` as written: it keeps the alerts whose `id` field is
   * not `id`. The button passes the alert's `alert_id`, and no alert carries
   * an `id` field.
   */
  function DismissAsWritten(alerts: seq<Json>, id: string): (r: seq<Json>)
    ensures |r| <= |alerts|
    ensures forall i :: 0 <= i < |alerts| ==> (alerts[i] in r <==> Get(alerts[i], "id") != Some(JStr(id)))
  {
    Filter(alerts, (a: Json) => Get(a, "id") != Some(JStr(id)))
  }

  /** Dismissal as the button means it: drop the alerts whose `alert_id` is `id`, keeping the rest in order. */
  function Dismiss(alerts: seq<Json>, id: string): (r: seq<Json>)
    ensures |r| <= |alerts|
    ensures forall i :: 0 <= i < |r| ==> Get(r[i], "alert_id") != Some(JStr(id))
    ensures forall i :: 0 <= i < |alerts| ==> (alerts[i] in r <==> Get(alerts[i], "alert_id") != Some(JStr(id)))
  {
    Filter(alerts, (a: Json) => Get(a, "alert_id") != Some(JStr(id)))
  }

  /** As written, dismissing never removes a served alert, whichever button is pressed. */
  lemma DismissAsWrittenKeepsServed(als: seq<Alert>, id: string)
    ensures DismissAsWritten(Each(EncodeAlert, als), id) == Each(EncodeAlert, als)
  {
    var e := Each(EncodeAlert, als);
    forall i | 0 <= i < |e|
      ensures Get(e[i], "id") != Some(JStr(id))
    {
      AlertFields(als[i]);
    }
    FilterKeepsAll(e, (a: Json) => Get(a, "id") != Some(JStr(id)));
  }

  /** Pressing a served alert's button leaves it on screen as written, and removes it once dismissal reads `alert_id`. */
  lemma DismissButtonAsWritten(a: Alert)
    ensures DismissAsWritten([EncodeAlert(a)], a.alert_id) == [EncodeAlert(a)]
    ensures Dismiss([EncodeAlert(a)], a.alert_id) == []
  {
    AlertFields(a);
    assert [EncodeAlert(a)][1..] == [];
  }

  /** On served alerts, dismissal removes exactly the alerts with that `alert_id`. */
  lemma DismissServed(als: seq<Alert>, id: string)
    ensures Dismiss(Each(EncodeAlert, als), id) == Each(EncodeAlert, Filter(als, (a: Alert) => a.alert_id != id))
  {
    forall a: Alert
      ensures (a.alert_id != id) == (Get(EncodeAlert(a), "alert_id") != Some(JStr(id)))
    {
      AlertFields(a);
    }
    FilterAfterEach(EncodeAlert, als, (a: Json) => Get(a, "alert_id") != Some(JStr(id)), (a: Alert) => a.alert_id != id);
  }

  /** Dismissing a shown alert shortens the list, and dismissing the same id again changes nothing. */
  lemma DismissShrinksOnce(alerts: seq<Json>, id: string, i: int)
    requires 0 <= i < |alerts| && Get(alerts[i], "alert_id") == Some(JStr(id))
    ensures |Dismiss(alerts, id)| < |alerts|
    ensures Dismiss(Dismiss(alerts, id), id) == Dismiss(alerts, id)
  {
    FilterDrops(alerts, (a: Json) => Get(a, "alert_id") != Some(JStr(id)), i);
    var once := Dismiss(alerts, id);
    FilterKeepsAll(once, (a: Json) => Get(a, "alert_id") != Some(JStr(id)));
  }

  /**
   * The row style: `alert.severity?.toLowerCase() || "info"` looked up in the
   * four-entry config, falling back to the info entry for anything else.
   */
  function AlertKind(severity: Option<Json>): (k: Severity)
    ensures severity.None? || !severity.value.JStr? ==> k == Info
    ensures severity.Some? && severity.value.JStr? ==>
      SeverityText(k) == ToLower(severity.value.s) || (k == Info && ParseSeverity(ToLower(severity.value.s)).None?)
  {
    match severity
    case Some(JStr(s)) =>
      (match ParseSeverity(ToLower(s))
       case Some(k) => ParseSeverityInverse(ToLower(s), k); k
       case None => Info)
    case _ => Info
  }

  /** A served alert is styled by its own severity. */
  lemma ServedAlertKind(a: Alert)
    ensures AlertKind(Get(EncodeAlert(a), "severity")) == a.severity
  {
    AlertFields(a);
    SeverityIsLowerCase(a.severity);
    SeverityRoundTrip(a.severity);
  }

  /** The severity strings are lower case already. */
  lemma SeverityIsLowerCase(k: Severity)
    ensures ToLower(SeverityText(k)) == SeverityText(k)
  {
    ToLowerOfLower(SeverityText(k));
  }

  /** The style lookup ignores case: "WARNING" is styled like "warning". */
  lemma AlertKindIgnoresCase(s: string)
    ensures AlertKind(Some(JStr(ToUpper(s)))) == AlertKind(Some(JStr(s)))
  {
    ToLowerIgnoresCase(s);
  }

  /** The four row styles of the config table. */
  datatype Style = Style(color: string, border: string, bg: string)

  function StyleOf(k: Severity): Style {
    match k
    case Warning => Style("text-warning", "border-l-4 border-l-warning", "bg-warning/5")
    case Error => Style("text-loss", "border-l-4 border-l-loss", "bg-loss/5")
    case Info => Style("text-info", "border-l-4 border-l-info", "bg-info/5")
    case Success => Style("text-profit", "border-l-4 border-l-profit", "bg-profit/5")
  }

  /** Each severity has a style of its own. */
  lemma StylesDistinct(k1: Severity, k2: Severity)
    ensures StyleOf(k1).color == StyleOf(k2).color <==> k1 == k2
  {
  }

  /** The theme tone each severity is painted in. */
  function Tone(k: Severity): string {
    match k
    case Warning => "warning"
    case Error => "loss"
    case Info => "info"
    case Success => "profit"
  }

  /** A row's text colour, left border and tinted background all use the one tone of its severity. */
  lemma StyleUsesOneTone(k: Severity)
    ensures StyleOf(k) == Style("text-" + Tone(k), "border-l-4 border-l-" + Tone(k), "bg-" + Tone(k) + "/5")
  {
    match k
    case Warning =>
      assert "text-" + "warning" == "text-warning";
      assert "border-l-4 border-l-" + "warning" == "border-l-4 border-l-warning";
      assert "bg-" + "warning" + "/5" == "bg-warning/5";
    case Error =>
      assert "text-" + "loss" == "text-loss";
      assert "border-l-4 border-l-" + "loss" == "border-l-4 border-l-loss";
      assert "bg-" + "loss" + "/5" == "bg-loss/5";
    case Info =>
      assert "text-" + "info" == "text-info";
      assert "border-l-4 border-l-" + "info" == "border-l-4 border-l-info";
      assert "bg-" + "info" + "/5" == "bg-info/5";
    case Success =>
      assert "text-" + "profit" == "text-profit";
      assert "border-l-4 border-l-" + "profit" == "border-l-4 border-l-profit";
      assert "bg-" + "profit" + "/5" == "bg-profit/5";
  }

  /** How long ago an alert was created, in the unit the card picks. */
  datatype Elapsed = SecondsAgo(s: int) | MinutesAgo(m: int) | HoursAgo(h: int)

  /**
   * `formatRelativeTime`: whole seconds `floor(elapsed / 1000)`, shown as
   * seconds below a minute, whole minutes below an hour, else whole hours.
   * Dafny's `/` by a positive divisor is the floor division `Math.floor` gives.
   */
  function RelativeTime(elapsedMs: int): (r: Elapsed)
    ensures var s := elapsedMs / 1000;
      && (s < 60 <==> r.SecondsAgo?)
      && (r.SecondsAgo? ==> r.s == s)
      && (60 <= s < 3600 <==> r.MinutesAgo?)
      && (r.MinutesAgo? ==> 1 <= r.m <= 59 && r.m * 60 <= s < r.m * 60 + 60)
      && (s >= 3600 <==> r.HoursAgo?)
      && (r.HoursAgo? ==> r.h >= 1 && r.h * 3600 <= s < r.h * 3600 + 3600)
  {
    var seconds := elapsedMs / 1000;
    if seconds < 60 then SecondsAgo(seconds)
    else
      var minutes := seconds / 60;
      if minutes < 60 then MinutesAgo(minutes)
      else
        var hours := minutes / 60;
        assert hours * 3600 <= seconds < hours * 3600 + 3600 by {
          assert minutes * 60 <= seconds < minutes * 60 + 60;
          assert hours * 60 <= minutes < hours * 60 + 60;
        }
        HoursAgo(hours)
  }

  /** The text the card prints for an elapsed time. */
  function RelativeText(elapsedMs: int): string {
    match RelativeTime(elapsedMs)
    case SecondsAgo(s) => IntToString(s) + "s ago"
    case MinutesAgo(m) => IntToString(m) + "m ago"
    case HoursAgo(h) => IntToString(h) + "h ago"
  }

  /** Bucket edges: 59.999 s is seconds, a full minute is "1m", 59 min 59 s is "59m", a full hour is "1h". */
  lemma RelativeTimeEdges()
    ensures RelativeTime(59999) == SecondsAgo(59)
    ensures RelativeTime(60000) == MinutesAgo(1)
    ensures RelativeTime(3599999) == MinutesAgo(59)
    ensures RelativeTime(3600000) == HoursAgo(1)
  {
  }

  /** The printed text at the bucket edges and for two hours. */
  lemma RelativeTextExamples()
    ensures RelativeText(59999) == "59s ago"
    ensures RelativeText(60000) == "1m ago"
    ensures RelativeText(7200000) == "2h ago"
  {
    RelativeTimeEdges();
    assert RelativeTime(7200000) == HoursAgo(2);
    assert DigitChar(5) == '5' && DigitChar(9) == '9' && DigitChar(1) == '1' && DigitChar(2) == '2';
    assert IntToString(59) == "59";
    assert IntToString(1) == "1";
    assert IntToString(2) == "2";
  }

  /** `Math.max(0, 30000 - age)`: the time left before the alert's 30-second auto-dismissal. */
  function AutoDismissDelay(ageMs: int): (r: int)
    ensures r >= 0
    ensures ageMs >= 0 ==> r <= 30000
    ensures r > 0 <==> ageMs < 30000
    ensures r > 0 ==> ageMs + r == 30000
  {
    if 30000 - ageMs > 0 then 30000 - ageMs else 0
  }

  /** A timer is scheduled only for an alert younger than 30 seconds, and an older alert never gets a longer delay. */
  lemma DelayShrinksWithAge(a1: int, a2: int)
    requires a1 <= a2
    ensures AutoDismissDelay(a1) >= AutoDismissDelay(a2)
  {
  }

  /** Served alerts carry no `timestamp` field, which the auto-dismiss effect reads to compute the age. */
  lemma ServedAlertsHaveNoTimestamp(a: Alert)
    ensures Get(EncodeAlert(a), "timestamp") == None
  {
    var required := map[
      "alert_id" := JStr(a.alert_id),
      "alert_type" := JStr(a.alert_type),
      "message" := JStr(a.message),
      "severity" := JStr(SeverityText(a.severity)),
      "created_at" := JStr(a.created_at)];
    assert "timestamp" !in required;
  }

  /** What the card renders: the count badge, the placeholder, and one style per row. */
  datatype PanelView = PanelView(badge: Option<nat>, placeholder: bool, styles: seq<Severity>)

  function Render(alerts: seq<Json>): (v: PanelView)
    ensures v.badge.Some? <==> |alerts| > 0
    ensures v.badge.Some? ==> v.badge.value == |alerts|
    ensures v.placeholder <==> |alerts| == 0
    ensures v.badge.Some? != v.placeholder
    ensures |v.styles| == |alerts|
    ensures forall i :: 0 <= i < |alerts| ==> v.styles[i] == AlertKind(Get(alerts[i], "severity"))
  {
    var styles := Each((a: Json) => AlertKind(Get(a, "severity")), alerts);
    if |alerts| > 0 then PanelView(Some(|alerts|), false, styles) else PanelView(None, true, styles)
  }
}
