/** The closed enumerations and records shared by the pages. */
module Types {
  import opened Wrappers

  /** `Convoy.status`. */
  datatype ConvoyStatus = Moving | Delayed | Completed | Scheduled

  /** `Alert.type`. */
  datatype AlertType = Traffic | Weather | Security | Logistics

  /** `Alert.severity`. */
  datatype Severity = Low | Medium | High

  datatype Convoy = Convoy(
    id: string, name: string, status: ConvoyStatus,
    eta: string, route: string, loadType: string)

  datatype Alert = Alert(
    id: string, kind: AlertType, title: string,
    description: string, timestamp: string, severity: Severity)

  /** A map position in the 0-100 coordinate space, with an optional label.
      The map component declares this shape, and the service's analysis
      carries a list of them; it is kept here because both use it. */
  datatype Waypoint = Waypoint(x: real, y: real, labelText: Option<string>)

  /** The text the UI shows for a convoy status (the string union's member). */
  function StatusText(s: ConvoyStatus): (t: string)
    ensures t != ""
  {
    match s
    case Moving => "Moving"
    case Delayed => "Delayed"
    case Completed => "Completed"
    case Scheduled => "Scheduled"
  }
}
