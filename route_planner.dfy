/** The route planner page: a three-field form, a loading flag and the last
    analysis, and the props it hands to the tactical map.  The async
    generate handler is two steps: setting the flag before the `await`, and
    storing the result and clearing the flag once it settles. */
module RoutePlannerPage {
  import opened Wrappers
  import opened Types
  import TacticalMap
  import GeminiService

  datatype FormData = FormData(start: string, destination: string, priority: string)

  const INITIAL_FORM: FormData := FormData("Base Alpha", "Sector 7 Depot", "Medium")

  /** The props of `<TacticalMap>`. */
  datatype MapProps = MapProps(waypoints: seq<Waypoint>, scanning: bool)

  /** `waypoints={result?.waypoints} scanning={loading}`: with no result the
      map receives `undefined`, which its default turns into []. */
  function MapPropsFor(loading: bool, result: Option<GeminiService.AIResponse>): (p: MapProps)
    ensures p.scanning == loading
    ensures result.None? ==> p.waypoints == []
    ensures result.Some? ==> p.waypoints == result.value.waypoints
  {
    MapProps(if result.Some? then result.value.waypoints else [], loading)
  }

  /** On this page the radar sweeps exactly while a request is outstanding,
      before the first result, or when the result has an empty route. */
  lemma PlannerRadarVisible(loading: bool, result: Option<GeminiService.AIResponse>)
    ensures var p := MapPropsFor(loading, result);
      TacticalMap.RadarVisible(p.waypoints, p.scanning) <==>
        loading || result.None? || result.value.waypoints == []
  {
  }

  /** Once the mock route has arrived the radar stops; after the fallback
      (an empty route) it keeps sweeping. */
  lemma RadarAfterMockAndFallback(start: string, end: string)
    ensures var p := MapPropsFor(false, Some(GeminiService.MockAnalysis(start, end)));
      !TacticalMap.RadarVisible(p.waypoints, p.scanning)
    ensures var p := MapPropsFor(false, Some(GeminiService.FALLBACK));
      TacticalMap.RadarVisible(p.waypoints, p.scanning)
  {
    GeminiService.MockRouteShape(start, end);
  }

  /** The parts of the page that depend on the state. */
  datatype PlannerView = PlannerView(
    generateDisabled: bool, buttonText: string, analysisShown: bool, shieldRed: bool)

  function ViewOf(loading: bool, result: Option<GeminiService.AIResponse>): (v: PlannerView)
    ensures v.generateDisabled <==> loading
    ensures v.analysisShown <==> result.Some?
    ensures v.shieldRed <==> result.Some? && result.value.riskLevel == "High"
  {
    PlannerView(
      loading,
      if loading then "Calcuating Trajectory..." else "Generate Tactical Route",
      result.Some?,
      result.Some? && result.value.riskLevel == "High")
  }

  class RoutePlanner {
    var loading: bool
    var result: Option<GeminiService.AIResponse>
    var form: FormData

    /** The page opens with the default form, no result and the radar sweeping. */
    constructor ()
      ensures !loading && result == None && form == INITIAL_FORM
      ensures TacticalMap.RadarVisible(Props().waypoints, Props().scanning)
    {
      loading := false;
      result := None;
      form := INITIAL_FORM;
    }

    method EditStart(value: string)
      modifies this
      ensures form == old(form).(start := value)
      ensures loading == old(loading) && result == old(result)
    {
      form := form.(start := value);
    }

    method EditDestination(value: string)
      modifies this
      ensures form == old(form).(destination := value)
      ensures loading == old(loading) && result == old(result)
    {
      form := form.(destination := value);
    }

    method EditPriority(value: string)
      modifies this
      ensures form == old(form).(priority := value)
      ensures loading == old(loading) && result == old(result)
    {
      form := form.(priority := value);
    }

    /** `handleGenerate` up to the `await`: the request goes out with the current form. */
    method BeginGenerate() returns (request: FormData)
      modifies this
      ensures loading
      ensures request == form && form == old(form) && result == old(result)
      ensures View().generateDisabled && Props().scanning
    {
      loading := true;
      request := form;
    }

    /** `handleGenerate` after the `await`: a returned analysis replaces the
        result, a thrown error (None) keeps the old one; loading ends either way. */
    method Settle(outcome: Option<GeminiService.AIResponse>)
      modifies this
      ensures !loading
      ensures result == (if outcome.Some? then outcome else old(result))
      ensures form == old(form)
      ensures !View().generateDisabled && !Props().scanning
    {
      if outcome.Some? {
        result := outcome;
      }
      loading := false;
    }

    /** The whole handler, with `generateRouteAnalysis` answering from the
        key and the SDK outcome `call`.  That function never throws, so a
        result is always stored. */
    method HandleGenerate(apiKey: string, call: GeminiService.RouteReply)
      modifies this
      ensures !loading && form == old(form)
      ensures result == Some(GeminiService.GenerateRouteAnalysis(
        apiKey, old(form).start, old(form).destination, old(form).priority, call))
    {
      var request := BeginGenerate();
      var data := GeminiService.GenerateRouteAnalysis(apiKey, request.start, request.destination, request.priority, call);
      Settle(Some(data));
    }

    /** What the page hands to `<TacticalMap>`. */
    function Props(): MapProps
      reads this
    {
      MapPropsFor(loading, result)
    }

    /** What the page shows for its current state. */
    function View(): PlannerView
      reads this
    {
      ViewOf(loading, result)
    }
  }
}
