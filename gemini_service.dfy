/** The two calls to the generative-language service.  The SDK call is an
    input outcome; each function turns every outcome, and a missing key,
    into a deterministic value, so neither can fail its caller. */
module GeminiService {
  import opened Wrappers
  import opened Types
  import opened JsString

  /** `process.env.API_KEY || ''`: a missing or empty variable gives "". */
  function ApiKey(env: Option<string>): (key: string)
    ensures key == "" <==> env.None? || env.value == ""
    ensures key != "" ==> env == Some(key)
  {
    match env
    case Some(v) => if v != "" then v else ""
    case None => ""
  }

  /** What `generateContent` did: answered with an optional `text`, or threw. */
  datatype SdkReply = Replied(text: Option<string>) | Threw

  const KEY_MISSING: string := "COMM LINK OFFLINE. KEY MISSING."
  const NO_DATA: string := "NO DATA RECEIVED."
  const TRANSMISSION_ERROR: string := "TRANSMISSION ERROR."

  /** `sendTacticalQuery`.  The message only shapes the SDK's reply, which
      is given here as `call`. */
  function SendTacticalQuery(apiKey: string, message: string, call: SdkReply): (answer: string)
    ensures answer != ""
    ensures apiKey == "" ==> answer == KEY_MISSING
    ensures apiKey != "" && call.Replied? && call.text.Some? && call.text.value != "" ==>
      answer == call.text.value
    ensures apiKey != "" && call.Replied? && (call.text.None? || call.text.value == "") ==>
      answer == NO_DATA
    ensures apiKey != "" && call.Threw? ==> answer == TRANSMISSION_ERROR
  {
    if apiKey == "" then KEY_MISSING
    else
      match call
      case Threw => TRANSMISSION_ERROR
      case Replied(text) =>
        match text
        case Some(t) => if t != "" then t else NO_DATA
        case None => NO_DATA
  }

  /** `AIResponse`.  A parsed reply is cast, not checked, so `riskLevel`
      is kept as the string it was. */
  datatype AIResponse = AIResponse(
    distance: string, duration: string, riskLevel: string,
    summary: string, tacticalNotes: string, waypoints: seq<Waypoint>)

  /** What the route request did: answered with an optional `text` and what
      `JSON.parse` made of it (None when it threw), or threw itself. */
  datatype RouteReply = RouteReplied(text: Option<string>, parsed: Option<AIResponse>) | RouteThrew

  const MOCK_SUMMARY_HEAD: string := "Optimal route generated from "
  const MOCK_SUMMARY_JOIN: string := " to "
  const MOCK_SUMMARY_TAIL: string := ". Avoids major civilian congestion sectors."

  function MockSummary(start: string, end: string): string {
    MOCK_SUMMARY_HEAD + start + MOCK_SUMMARY_JOIN + end + MOCK_SUMMARY_TAIL
  }

  const MOCK_WAYPOINTS: seq<Waypoint> := [
    Waypoint(20.0, 80.0, Some("START")),
    Waypoint(35.0, 65.0, None),
    Waypoint(50.0, 60.0, Some("CHECKPOINT")),
    Waypoint(65.0, 40.0, None),
    Waypoint(80.0, 20.0, Some("END"))
  ]

  const MOCK_NOTES: string :=
    "Proceed with caution through Sector 4 due to recent weather alerts. Maintain radio silence in Valley Region."

  /** The canned analysis returned when no key is configured. */
  function MockAnalysis(start: string, end: string): AIResponse {
    AIResponse(
      "145 KM", "2h 15m", "Medium",
      MockSummary(start, end), MOCK_NOTES,
      MOCK_WAYPOINTS)
  }

  const FALLBACK: AIResponse := AIResponse(
    "N/A", "N/A", "High",
    "AI Analysis failed. Manual routing required.",
    "System offline or API key invalid.",
    [])

  /** True when the reply carried a non-empty text that parsed. */
  predicate ParsedReply(call: RouteReply) {
    call.RouteReplied? && call.text.Some? && call.text.value != "" && call.parsed.Some?
  }

  /** `generateRouteAnalysis`: the mock without a key; otherwise the parsed
      reply, or the fallback for an empty reply, a parse failure or a thrown
      error. */
  function GenerateRouteAnalysis(apiKey: string, start: string, end: string, priority: string, call: RouteReply): (r: AIResponse)
    ensures apiKey == "" ==> r == MockAnalysis(start, end)
    ensures apiKey != "" && ParsedReply(call) ==> r == call.parsed.value
    ensures apiKey != "" && !ParsedReply(call) ==> r == FALLBACK
  {
    if apiKey == "" then MockAnalysis(start, end)
    else
      match call
      case RouteThrew => FALLBACK
      case RouteReplied(text, parsed) =>
        if text.Some? && text.value != "" then
          match parsed
          case Some(response) => response
          case None => FALLBACK
        else FALLBACK
  }

  predicate InMapRange(wp: Waypoint) {
    0.0 <= wp.x <= 100.0 && 0.0 <= wp.y <= 100.0
  }

  /** The mock route: medium risk and five waypoints inside the map,
      labelled START, CHECKPOINT and END. */
  lemma MockRouteShape(start: string, end: string)
    ensures MockAnalysis(start, end).riskLevel == "Medium"
    ensures MockAnalysis(start, end).waypoints == MOCK_WAYPOINTS
    ensures |MOCK_WAYPOINTS| == 5
    ensures MOCK_WAYPOINTS[0].labelText == Some("START")
    ensures MOCK_WAYPOINTS[2].labelText == Some("CHECKPOINT")
    ensures MOCK_WAYPOINTS[4].labelText == Some("END")
    ensures forall i :: 0 <= i < |MOCK_WAYPOINTS| ==> InMapRange(MOCK_WAYPOINTS[i])
  {
  }

  /** The mock summary names both the start and the destination. */
  lemma MockSummaryNamesEnds(start: string, end: string)
    ensures Includes(MockAnalysis(start, end).summary, start)
    ensures Includes(MockAnalysis(start, end).summary, end)
  {
    IncludesSpliced(MOCK_SUMMARY_HEAD, start, MOCK_SUMMARY_JOIN, end, MOCK_SUMMARY_TAIL);
  }

  /** The fallback: no distance or duration, high risk, an empty route. */
  lemma FallbackShape()
    ensures FALLBACK.distance == "N/A" && FALLBACK.duration == "N/A"
    ensures FALLBACK.riskLevel == "High" && FALLBACK.waypoints == []
  {
  }
}
