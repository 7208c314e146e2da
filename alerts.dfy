/** The alerts page: one card per alert, in list order, whose icon depends
    on the alert type and whose border and CRITICAL tag depend on severity. */
module AlertsPage {
  import opened Types

  datatype Icon = LockIcon | CloudRainIcon | TrafficConeIcon | InfoIcon

  /** `getIcon`: three types have their own icon, any other gets the info icon. */
  function IconFor(kind: AlertType): (icon: Icon)
    ensures kind == Security <==> icon == LockIcon
    ensures kind == Weather <==> icon == CloudRainIcon
    ensures kind == Traffic <==> icon == TrafficConeIcon
    ensures kind == Logistics <==> icon == InfoIcon
  {
    match kind
    case Security => LockIcon
    case Weather => CloudRainIcon
    case Traffic => TrafficConeIcon
    case _ => InfoIcon
  }

  datatype BorderColor = RedBorder | YellowBorder | MilitaryBorder

  datatype AlertCardView = AlertCardView(
    id: string, icon: Icon, border: BorderColor, criticalTag: bool,
    title: string, description: string, timestamp: string, typeTag: AlertType)

  /** `AlertCard`: the left border is red for high severity, yellow for
      medium and military green otherwise; the CRITICAL tag marks high severity. */
  function AlertCard(alert: Alert): (v: AlertCardView)
    ensures v.icon == IconFor(alert.kind) && v.typeTag == alert.kind
    ensures v.border == RedBorder <==> alert.severity == High
    ensures v.border == YellowBorder <==> alert.severity == Medium
    ensures v.border == MilitaryBorder <==> alert.severity == Low
    ensures v.criticalTag <==> alert.severity == High
  {
    AlertCardView(
      alert.id, IconFor(alert.kind),
      if alert.severity == High then RedBorder
      else if alert.severity == Medium then YellowBorder
      else MilitaryBorder,
      alert.severity == High,
      alert.title, alert.description, alert.timestamp, alert.kind)
  }

  /** `ALERTS.map(alert => <AlertCard .../>)`. */
  function AlertCards(alerts: seq<Alert>): (cards: seq<AlertCardView>)
    ensures |cards| == |alerts|
    ensures forall i :: 0 <= i < |alerts| ==> cards[i] == AlertCard(alerts[i]) && cards[i].id == alerts[i].id
  {
    if alerts == [] then [] else [AlertCard(alerts[0])] + AlertCards(alerts[1..])
  }

  const ALERTS: seq<Alert> := [
    Alert("A-001", Security, "Checkpoint Charlie Compromised",
      "Civilian unrest reported at Sector 4 checkpoint. Alternate routes advised.", "10:45 AM", High),
    Alert("A-002", Traffic, "Congestion on R-104",
      "Supply truck breakdown causing 20 min delays.", "10:15 AM", Medium),
    Alert("A-003", Weather, "Sandstorm Warning",
      "Visibility reducing in Northern Sector. Convoy speed limit reduced to 30km/h.", "09:30 AM", Medium),
    Alert("A-004", Logistics, "Fuel Depot B Low Stock",
      "Refueling capacity at 15%. Route divert suggested for heavy armor.", "08:00 AM", Low)
  ]

  /** The alert ids, which the cards use as keys, are distinct. */
  lemma AlertIdsDistinct()
    ensures forall i, j :: 0 <= i < j < |ALERTS| ==> ALERTS[i].id != ALERTS[j].id
  {
  }

  /** The page's cards: one per alert, in order, with one CRITICAL tag (the first). */
  lemma AlertsPageCards()
    ensures var cards := AlertCards(ALERTS);
      |cards| == 4 &&
      (forall i :: 0 <= i < 4 ==> (cards[i].criticalTag <==> i == 0)) &&
      cards[3].icon == InfoIcon
  {
  }
}
