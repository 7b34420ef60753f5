/**
 * The first dashboard's alert list: the first five alerts not yet
 * acknowledged, each with a title made from its type, an icon and a colour
 * chosen by severity. The alerts are the response body's objects as the
 * page received them.
 */
module LegacyAlertPanel {
  import opened Wrappers
  import opened Json
  import opened Text
  import opened MockTypes
  import opened Wire
  import opened Seqs

  /** `!a.acknowledged`: a missing flag reads as not acknowledged. */
  predicate Active(a: Json) {
    !(match Get(a, "acknowledged") case Some(v) => Truthy(v) case None => false)
  }

  function ActiveAlerts(alerts: seq<Json>): (r: seq<Json>)
    ensures |r| <= |alerts|
    ensures forall i :: 0 <= i < |r| ==> Active(r[i])
    ensures forall i :: 0 <= i < |alerts| ==> (alerts[i] in r <==> Active(alerts[i]))
  {
    Filter(alerts, Active)
  }

  /** The rows shown: the first five active alerts, in order. */
  function Shown(alerts: seq<Json>): (r: seq<Json>)
    ensures |r| <= 5
    ensures forall i :: 0 <= i < |r| ==> Active(r[i])
    ensures |r| == if |ActiveAlerts(alerts)| < 5 then |ActiveAlerts(alerts)| else 5
    ensures r == ActiveAlerts(alerts)[..|r|]
  {
    var active := ActiveAlerts(alerts);
    if |active| <= 5 then active else active[..5]
  }

  /** "No active alerts" shows exactly when no alert is active. */
  predicate ShowsPlaceholder(alerts: seq<Json>) {
    |ActiveAlerts(alerts)| == 0
  }

  lemma PlaceholderIffNoneActive(alerts: seq<Json>)
    ensures ShowsPlaceholder(alerts) <==> forall i :: 0 <= i < |alerts| ==> !Active(alerts[i])
    ensures ShowsPlaceholder(alerts) <==> |Shown(alerts)| == 0
  {
    if !ShowsPlaceholder(alerts) {
      var r := ActiveAlerts(alerts);
      assert r[0] in alerts;
    }
  }

  /** Served alerts carry no `acknowledged` flag, so every one of them is active and the first five are shown. */
  lemma ServedAlertsAllShown(als: seq<Alert>)
    ensures ActiveAlerts(Each(EncodeAlert, als)) == Each(EncodeAlert, als)
    ensures Shown(Each(EncodeAlert, als)) == Each(EncodeAlert, als)[..if |als| < 5 then |als| else 5]
  {
    var e := Each(EncodeAlert, als);
    forall i | 0 <= i < |e|
      ensures Active(e[i])
    {
      NoAcknowledgedFlag(als[i]);
    }
    FilterKeepsAll(e, Active);
  }

  lemma NoAcknowledgedFlag(a: Alert)
    ensures Get(EncodeAlert(a), "acknowledged") == None
  {
    var required := map[
      "alert_id" := JStr(a.alert_id),
      "alert_type" := JStr(a.alert_type),
      "message" := JStr(a.message),
      "severity" := JStr(SeverityText(a.severity)),
      "created_at" := JStr(a.created_at)];
    assert "acknowledged" !in required;
  }

  datatype Icon = ErrorIcon | WarningIcon | InfoIcon

  /** `getIcon`: critical and warning have icons of their own, anything else gets the info icon. */
  function IconOf(severity: Option<Json>): (i: Icon)
    ensures i == ErrorIcon <==> severity == Some(JStr("critical"))
    ensures i == WarningIcon <==> severity == Some(JStr("warning"))
  {
    if severity == Some(JStr("critical")) then ErrorIcon
    else if severity == Some(JStr("warning")) then WarningIcon
    else InfoIcon
  }

  /** The border and chip colour: error for critical, warning for everything else. */
  predicate ErrorColored(severity: Option<Json>) {
    severity == Some(JStr("critical"))
  }

  /** The colour and the icon agree on what is critical. */
  lemma ColorMatchesIcon(severity: Option<Json>)
    ensures ErrorColored(severity) <==> IconOf(severity) == ErrorIcon
  {
  }

  /**
   * The mock's severities are info, warning, error and success, never
   * "critical": a served alert is never error-coloured, and an "error" alert
   * gets the info icon.
   */
  lemma ServedSeverityStyling(a: Alert)
    ensures !ErrorColored(Get(EncodeAlert(a), "severity"))
    ensures IconOf(Get(EncodeAlert(a), "severity")) == if a.severity == Warning then WarningIcon else InfoIcon
  {
    AlertFields(a);
  }

  /** `alert_type.replace(/_/g, ' ').toUpperCase()`. */
  function Title(alertType: string): (t: string)
    ensures |t| == |alertType|
    ensures forall i :: 0 <= i < |t| ==> t[i] != '_' && !('a' <= t[i] <= 'z')
    ensures forall i :: 0 <= i < |t| ==> (alertType[i] == '_' || alertType[i] == ' ' <==> t[i] == ' ')
  {
    var spaced := ReplaceAll(alertType, '_', ' ');
    var t := ToUpper(spaced);
    assert forall i :: 0 <= i < |t| ==> t[i] == UpperChar(spaced[i]);
    t
  }

  /** Titles lose only the distinction between '_' and ' ' and between cases: they are otherwise the type, character for character. */
  lemma TitleCharacters(alertType: string, i: int)
    requires 0 <= i < |alertType|
    requires alertType[i] != '_' && alertType[i] != ' '
    ensures Title(alertType)[i] == UpperChar(alertType[i])
  {
  }
}
