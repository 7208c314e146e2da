# Logistics command dashboard — a Dafny model

This project models the behaviour of a single-page logistics dashboard
written in React and TypeScript. The dashboard has these parts:

- a tactical map drawn on a canvas, animation frame by animation frame;
- a convoy table with case-insensitive search;
- a system log and a heat map driven by timers;
- a chat terminal and a route planner, both backed by a generative-language
  service;
- an alerts list;
- a page shell with a sidebar;
- the route table.

Each source file of the core becomes one module:

| module | file | form |
|---|---|---|
| `TacticalMap` | components/TacticalMap.tsx | pure draw-command specifications, loop methods proved equal to them, and a `MapEffect` class for one run of the animation |
| `ConvoyStatusPage` | pages/ConvoyStatus.tsx | pure filter and table view |
| `DashboardPage` | pages/Dashboard.tsx | the log append and heat-band classification as functions, and the two timer-driven panels as classes |
| `GeminiService` | services/geminiService.ts | the key and outcome branching of the two service calls |
| `CommandTerminal` | components/CommandTerminal.tsx | a `Terminal` class whose async submit handler is two steps |
| `RoutePlannerPage` | pages/RoutePlanner.tsx | a `RoutePlanner` class with the same two-step handler, and the props it gives the map |
| `UiElements` | components/UiElements.tsx | badge colour switch, button class parts, card header rule |
| `Layout` | components/Layout.tsx | navigation items, title lookup, and a `LayoutShell` class for the sidebar |
| `AlertsPage` | pages/Alerts.tsx | alert card styling |
| `App` | App.tsx | route resolution with the wildcard redirect |

Three support modules hold shared pieces:

- `Wrappers` holds `Option`.
- `JsString` holds the JavaScript string operations the pages rely on: `toLowerCase`, `includes` and `trim`. String truthiness has no member of its own; it is written out where it is used (`TacticalMap.HasVisibleLabel`, `UiElements.CardHasHeader`, `GeminiService.ApiKey`).
- `Types` holds the shared records and string unions of types.ts, plus `Waypoint`. The map declares the waypoint shape itself (components/TacticalMap.tsx:3-7), and the service's `AIResponse` repeats it (services/geminiService.ts:13).

The model represents the outside world as follows:

- **Canvas.** Drawing is a sequence of abstract draw commands.
- **Styling.** Colours and CSS classes are enumerations.
- **Numbers.** Coordinates and canvas sizes are reals.
- **External inputs.** The following become parameters: the service's reply (an answer, an empty answer, or a thrown error), the result of `JSON.parse`, the `API_KEY` environment variable, and the values `Math.random` returns.

## Model

| member | source | states |
|---|---|---|
| JsString.ToLower | pages/ConvoyStatus.tsx:20-22 | lower-casing keeps the length, lowers each ASCII capital, keeps every other character, and leaves no capital behind |
| JsString.ToLowerIdempotent | pages/ConvoyStatus.tsx:20-22 | lower-casing an already lower-cased string changes nothing |
| JsString.Includes | pages/ConvoyStatus.tsx:20-22 | a match needs a needle no longer than the haystack; every string includes itself and "" (the partner lemma below ties the scan to an occurrence) |
| JsString.IncludesIffOccurs | pages/ConvoyStatus.tsx:20-22 | the `includes` scan answers true exactly when the needle occurs at some index |
| JsString.IncludesEmpty | pages/ConvoyStatus.tsx:20-22 | every string includes the empty string |
| JsString.Trim | components/CommandTerminal.tsx:27 | the trimmed string is the piece of the original left after removing only whitespace before and after it, and it neither starts nor ends with whitespace |
| JsString.TrimEmptyIffBlank | components/CommandTerminal.tsx:27 | a string trims to "" exactly when all its characters are JavaScript whitespace or line terminators |
| TacticalMap.Scale | components/TacticalMap.tsx:116-117 | map coordinate 0 lands on pixel 0 and coordinate 100 on the full canvas size |
| TacticalMap.ScaleMonotone | components/TacticalMap.tsx:116-117 | scaling preserves the order of coordinates on a canvas of non-negative size |
| TacticalMap.RadarVisible | components/TacticalMap.tsx:78 | the radar is drawn exactly when scanning or when there are no waypoints |
| TacticalMap.RadarLayer | components/TacticalMap.tsx:77-102 | the radar layer is at most one command, all of it radar, and it is non-empty iff the radar is visible |
| TacticalMap.NextRadarSteps | components/TacticalMap.tsx:78-103 | the angle advances by one step exactly when the sweep was drawn, and otherwise stays |
| TacticalMap.RadarAdvancesEveryFrameOrNever | components/TacticalMap.tsx:31-103 | after n frames of one effect run the radar has advanced n steps if it is visible and none otherwise |
| TacticalMap.DefaultPropsShowRadar | components/TacticalMap.tsx:14 | with the default props (no waypoints, scanning) the radar is drawn |
| TacticalMap.VerticalPass | components/TacticalMap.tsx:39-51 | the vertical-line loop draws only grid-layer commands |
| TacticalMap.HorizontalPass | components/TacticalMap.tsx:54-59 | the horizontal-line loop draws only horizontal grid lines |
| TacticalMap.GridCommands | components/TacticalMap.tsx:33-60 | the grid draws only grid-layer commands |
| TacticalMap.VerticalPassContents | components/TacticalMap.tsx:39-51 | from x on, a vertical line sits at v iff v is x plus a multiple of 40 within the width; its coordinate text appears iff v is also a multiple of 80 |
| TacticalMap.HorizontalPassContents | components/TacticalMap.tsx:54-59 | from y on, a horizontal line sits at v iff v is y plus a multiple of 40 within the height |
| TacticalMap.GridLinePositions | components/TacticalMap.tsx:36-59 | grid lines sit exactly at the multiples of 40 up to the canvas size; coordinate text appears exactly on the vertical lines at multiples of 80 |
| TacticalMap.DrawGrid | components/TacticalMap.tsx:33-60 | the two `for` loops emit exactly the grid specification |
| TacticalMap.RingColorAt | components/TacticalMap.tsx:136 | a marker ring is red iff its waypoint is the first or the last, yellow otherwise |
| TacticalMap.SinglePointRouteIsRed | components/TacticalMap.tsx:136 | the only marker of a one-point route is red |
| TacticalMap.PathShape | components/TacticalMap.tsx:114-121 | the path has one command per waypoint, in order: a move-to at the first waypoint and a line-to at each later one, at the scaled position |
| TacticalMap.MarkerCommands | components/TacticalMap.tsx:126-147 | each waypoint draws a dot, then a ring at the same point in its index colour, then a label iff the label is truthy |
| TacticalMap.MarkerRing | components/TacticalMap.tsx:136-140 | a waypoint's markers hold a ring at a point in a colour exactly when that is its scaled point and its index colour |
| TacticalMap.RingsDrawn | components/TacticalMap.tsx:126-148 | a ring is drawn at a point in a colour iff some waypoint sits there and that is its ring colour: red for the first and last, yellow otherwise |
| TacticalMap.RouteRings | components/TacticalMap.tsx:106-149 | the same holds for the whole route drawing, since the path draws no rings |
| TacticalMap.MarkerLabel | components/TacticalMap.tsx:143-147 | a waypoint's markers include its label exactly when the label is truthy, at (+10, +4) from the point |
| TacticalMap.LabelsDrawn | components/TacticalMap.tsx:126-148 | a label text is drawn at a position iff some waypoint has that truthy label and that offset position |
| TacticalMap.RouteCommands | components/TacticalMap.tsx:106-107 | the route draws nothing iff there are no waypoints, and otherwise starts by opening the dashed path |
| TacticalMap.RouteLabels | components/TacticalMap.tsx:106-149 | a label text is drawn anywhere in the route iff some waypoint has that truthy label at that anchor, since the path draws no text |
| TacticalMap.RouteLayout | components/TacticalMap.tsx:111-122 | a non-empty route opens the dashed path, then the path commands in order, then strokes it before the markers |
| TacticalMap.RouteShape | components/TacticalMap.tsx:106-122 | an empty route draws nothing; otherwise the route starts the dashed path, moves to the first waypoint, draws a line to each later one in order, and strokes; all of it is in the route layer |
| TacticalMap.DrawRoute | components/TacticalMap.tsx:106-149 | the early return and the two `forEach` loops emit exactly the route specification |
| TacticalMap.DrawPath | components/TacticalMap.tsx:114-121 | the first `forEach` emits exactly the path specification: one move-to or line-to per waypoint, in order |
| TacticalMap.DrawMarkers | components/TacticalMap.tsx:126-148 | the second `forEach` emits exactly the markers specification: dot, ring and truthy label per waypoint, in order |
| TacticalMap.BackdropOrdered | components/TacticalMap.tsx:152-159 | a frame starts with clear and fill, then the grid, then the terrain, never going back to an earlier layer |
| TacticalMap.Frame | components/TacticalMap.tsx:151-161 | every frame starts with the same backdrop whatever the props and angle, then the route, then one more command iff the radar is visible |
| TacticalMap.FrameLayerOrder | components/TacticalMap.tsx:151-163 | every frame starts with clear and background fill and draws grid, terrain, route and radar in that layer order |
| TacticalMap.FrameRadar | components/TacticalMap.tsx:77-78 | the radar appears in a frame iff it is visible, and then it is the frame's last command |
| TacticalMap.MapEffect.constructor | components/TacticalMap.tsx:30-31 | an effect run starts with the radar angle at zero |
| TacticalMap.MapEffect.Render | components/TacticalMap.tsx:151-164 | one `render` emits the frame for the current angle, and the angle grows by 0.02 if the radar was drawn and stays otherwise |
| TacticalMap.MapEffect.Animate | components/TacticalMap.tsx:163-166 | the k-th frame of a run is the frame at the angle reached after k frames |
| ConvoyStatusPage.Matches | pages/ConvoyStatus.tsx:20-22 | the empty search matches every convoy |
| ConvoyStatusPage.MatchesIgnoresCase | pages/ConvoyStatus.tsx:20-22 | lower-casing the search first never changes whether a convoy matches |
| ConvoyStatusPage.FilterConvoys | pages/ConvoyStatus.tsx:19-23 | the filter never yields more convoys than the table has |
| ConvoyStatusPage.FilterSoundComplete | pages/ConvoyStatus.tsx:19-23 | a convoy is in the result iff it is in the table and its lower-cased id, name or route includes the lower-cased search |
| ConvoyStatusPage.FilteredConvoys | pages/ConvoyStatus.tsx:19-23 | the page's list never has more rows than the table |
| ConvoyStatusPage.FilteredConvoysSoundComplete | pages/ConvoyStatus.tsx:6-23 | the page shows a convoy iff it is one of the seven and the search matches it |
| ConvoyStatusPage.FilterIsSubsequence | pages/ConvoyStatus.tsx:19-23 | the result keeps the table's order |
| ConvoyStatusPage.FilterKeepsIdsDistinct | pages/ConvoyStatus.tsx:19-23 | filtering a table with distinct ids gives a result with distinct ids |
| ConvoyStatusPage.AllConvoysDistinctIds | pages/ConvoyStatus.tsx:6-14 | the table has seven convoys with distinct ids |
| ConvoyStatusPage.FilteredConvoysOrderedDistinct | pages/ConvoyStatus.tsx:6-23 | the rows shown are drawn from the table in order, with no id repeated |
| ConvoyStatusPage.EmptySearchKeepsAll | pages/ConvoyStatus.tsx:17-23 | an empty search (the initial state) keeps every convoy |
| ConvoyStatusPage.SameLowerSameResult | pages/ConvoyStatus.tsx:20-22 | searches equal up to case give the same rows |
| ConvoyStatusPage.UnsearchedFields | pages/ConvoyStatus.tsx:19-23 | status, ETA and load type never affect whether a convoy matches |
| ConvoyStatusPage.ConvoyTable | pages/ConvoyStatus.tsx:48-76 | the rows are the filter's result, the card title counts them, and the "no convoys" row appears iff the filter keeps nothing |
| DashboardPage.AppendLog | pages/Dashboard.tsx:60 | an append keeps the newest min(n, 15) old lines in order and adds the message last, so the log never exceeds 16 lines |
| DashboardPage.AppendAllKeepsNewest | pages/Dashboard.tsx:58-61 | after any number of ticks the log is the newest 16 lines of everything written, in order |
| DashboardPage.LogIndex | pages/Dashboard.tsx:59 | a random draw in [0, 1) always picks an index inside the message list |
| DashboardPage.SystemLog.constructor | pages/Dashboard.tsx:55 | the log starts with the two start-up lines |
| DashboardPage.SystemLog.Append | pages/Dashboard.tsx:60 | the new log is the append specification of the old one and stays within 16 lines |
| DashboardPage.SystemLog.Tick | pages/Dashboard.tsx:58-61 | one tick appends the message the random draw selects |
| DashboardPage.Classify | pages/Dashboard.tsx:42-46 | a cell is critical above 0.92, congested in (0.75, 0.92], clear in (0.4, 0.75], and base at or below 0.4 or when undefined |
| DashboardPage.ClassifyMonotone | pages/Dashboard.tsx:43-46 | a larger value never falls into a lower band |
| DashboardPage.HeatMap.constructor | pages/Dashboard.tsx:28-46 | the heat map starts with 50 undefined cells, all shown in the base colour |
| DashboardPage.HeatMap.Refresh | pages/Dashboard.tsx:31-46 | a tick replaces every cell with the next value, keeping 50 cells, and each cell's colour is the band of its new value |
| DashboardPage.HeatMap.Classes | pages/Dashboard.tsx:42-48 | one colour band per cell, in grid order, each the band of that cell's value |
| DashboardPage.UndefinedCellsAreBase | pages/Dashboard.tsx:28-46 | before the first tick every cell shows the base colour |
| GeminiService.ApiKey | services/geminiService.ts:4 | the key is empty iff the variable is missing or empty, and otherwise is its value |
| GeminiService.SendTacticalQuery | services/geminiService.ts:94-108 | the answer is never empty: the key-missing notice without a key, otherwise the reply text, "NO DATA RECEIVED." for an empty reply, or the transmission-error notice when the call threw |
| GeminiService.GenerateRouteAnalysis | services/geminiService.ts:16-91 | without a key the mock; with a key the parsed reply when the text is non-empty and parses, and the fallback otherwise |
| GeminiService.MockRouteShape | services/geminiService.ts:27-40 | the mock has medium risk and five in-range waypoints labelled START, CHECKPOINT and END at positions 0, 2 and 4 |
| GeminiService.MockSummaryNamesEnds | services/geminiService.ts:31 | the mock summary contains both the start and the destination |
| GeminiService.FallbackShape | services/geminiService.ts:83-90 | the fallback has no distance or duration, high risk and no waypoints |
| CommandTerminal.SendButtonDisabled | components/CommandTerminal.tsx:102 | the send button is disabled iff the input is blank or a reply is pending |
| CommandTerminal.ReplyMessage | components/CommandTerminal.tsx:35-38 | the AI message holds the answer, or the connection-interrupted notice when the query threw |
| CommandTerminal.Terminal.constructor | components/CommandTerminal.tsx:11-16 | closed, empty input, not typing, and only the greeting in the history |
| CommandTerminal.Terminal.Toggle | components/CommandTerminal.tsx:49 | the header click flips the panel and changes nothing else |
| CommandTerminal.Terminal.Edit | components/CommandTerminal.tsx:96 | typing replaces the input and changes nothing else |
| CommandTerminal.Terminal.Submit | components/CommandTerminal.tsx:25-32 | blank input changes nothing; otherwise the input is cleared, the untrimmed text is appended as a user message, a reply becomes pending, and that text is sent, leaving the send button disabled |
| CommandTerminal.Terminal.Settle | components/CommandTerminal.tsx:34-41 | exactly one AI message is appended and the pending flag is cleared, whether the query answered or threw |
| CommandTerminal.Terminal.HandleSubmit | components/CommandTerminal.tsx:25-42 | a non-blank submission appends the user's text and then the service's answer, and clears input and pending flag; the history only grows |
| RoutePlannerPage.MapPropsFor | pages/RoutePlanner.tsx:88 | the map scans while loading and gets the result's waypoints, or none without a result |
| RoutePlannerPage.PlannerRadarVisible | pages/RoutePlanner.tsx:88 | on the planner the radar shows iff loading, no result yet, or the result's route is empty |
| RoutePlannerPage.RadarAfterMockAndFallback | pages/RoutePlanner.tsx:88 | once loaded, the mock route stops the radar and the fallback's empty route keeps it sweeping |
| RoutePlannerPage.ViewOf | pages/RoutePlanner.tsx:64-115 | the generate button is disabled iff loading, the analysis card shows iff there is a result, and the shield is red iff the risk level is "High" |
| RoutePlannerPage.RoutePlanner.constructor | pages/RoutePlanner.tsx:8-14 | not loading, no result, and the form holds Base Alpha / Sector 7 Depot / Medium; the map's radar sweeps |
| RoutePlannerPage.RoutePlanner.EditStart | pages/RoutePlanner.tsx:37 | editing the start replaces only that field |
| RoutePlannerPage.RoutePlanner.EditDestination | pages/RoutePlanner.tsx:45 | editing the destination replaces only that field |
| RoutePlannerPage.RoutePlanner.EditPriority | pages/RoutePlanner.tsx:53 | editing the priority replaces only that field |
| RoutePlannerPage.RoutePlanner.BeginGenerate | pages/RoutePlanner.tsx:16-19 | loading starts, the request carries the current form, the generate button is disabled and the map scans |
| RoutePlannerPage.RoutePlanner.Settle | pages/RoutePlanner.tsx:19-25 | loading ends; a returned analysis replaces the result and a thrown error keeps the previous one; the button is enabled again and the map stops scanning |
| RoutePlannerPage.RoutePlanner.HandleGenerate | pages/RoutePlanner.tsx:16-26 | after the handler, loading is off and the result is the analysis of the form as it was when the handler started |
| UiElements.BadgeColorOf | components/UiElements.tsx:22-43 | green, yellow, red and blue each for exactly their lower-cased case labels, gray for anything else |
| UiElements.Badge | components/UiElements.tsx:45-49 | the badge shows the status as given, coloured by its lower-cased form |
| UiElements.BadgeColorIgnoresCase | components/UiElements.tsx:24 | statuses equal up to case get the same colour |
| UiElements.ConvoyStatusBadgeColors | components/UiElements.tsx:24-42 | Moving is green, Delayed yellow, Completed blue |
| UiElements.ScheduledBadgeIsGray | components/UiElements.tsx:22-43 | Scheduled matches no case and is gray |
| UiElements.RiskLevelBadgeColors | components/UiElements.tsx:24-39 | risk Low is green, Medium yellow, High red |
| UiElements.ButtonClass | components/UiElements.tsx:52-68 | the class is the base style, then the variant style (primary when none is given), then the caller's class ("" when none) |
| UiElements.CardHasHeader | components/UiElements.tsx:6 | a card has a header iff it has a non-empty title or a truthy action |
| Layout.FindByPath | components/Layout.tsx:97 | the lookup finds the first item with the given path, or reports that no item has it |
| Layout.NavPathsDistinct | components/Layout.tsx:24-30 | the five navigation paths are distinct |
| Layout.ActiveItemUnique | components/Layout.tsx:63-64 | at most one item is highlighted, and one is iff the path is a navigation path |
| Layout.HeaderTitle | components/Layout.tsx:97 | the header title is never empty and is always one of the navigation labels |
| Layout.HeaderTitleMatchesActiveItem | components/Layout.tsx:97 | the header shows the highlighted item's label, and "Dashboard" when none is highlighted |
| Layout.LayoutShell.constructor | components/Layout.tsx:20 | the sidebar starts closed, at path "/" |
| Layout.LayoutShell.ToggleMenu | components/Layout.tsx:40 | the menu button flips the sidebar and keeps the path |
| Layout.LayoutShell.NavClick | components/Layout.tsx:68-71 | a nav click goes to the item's path, closes the sidebar, and the header then shows the item's label |
| Layout.LayoutShell.OverlayClick | components/Layout.tsx:112-116 | the overlay exists only while the sidebar is open, and clicking it closes the sidebar without navigating |
| AlertsPage.IconFor | pages/Alerts.tsx:13-20 | Security gets the lock, Weather the cloud, Traffic the cone, and every other type the info icon |
| AlertsPage.AlertCard | pages/Alerts.tsx:22-43 | the border is red iff severity is High, yellow iff Medium, military green iff Low; the CRITICAL tag appears iff severity is High |
| AlertsPage.AlertCards | pages/Alerts.tsx:54-56 | one card per alert, in list order |
| AlertsPage.AlertIdsDistinct | pages/Alerts.tsx:6-11 | the alert ids used as keys are distinct |
| AlertsPage.AlertsPageCards | pages/Alerts.tsx:6-56 | the page shows four cards, only the first tagged CRITICAL, and the logistics alert gets the info icon |
| App.Lookup | App.tsx:14-19 | a path finds a page iff some table entry has that path, and then it is that entry's page |
| App.Resolve | App.tsx:14-20 | a path renders a page iff the table lists it, and then it is that entry's page; any other path redirects to "/" |
| App.Land | App.tsx:15-20 | a listed path shows its page; any other path ends on the dashboard |
| App.RoutePathsDistinct | App.tsx:15-19 | the route table's paths are distinct |
| App.KnownPathsResolve | App.tsx:15-19 | each listed path renders its own page |
| App.UnknownPathsRedirect | App.tsx:20 | every other path redirects to "/", which renders the dashboard with no second redirect |
| App.NavPathsResolve | App.tsx:15-19 | every navigation link resolves without a redirect |

## Left out

- JsString.ToLower: lowers ASCII capitals only. JavaScript's `toLowerCase` applies full Unicode case mapping, so searches and badges on non-ASCII letters are not modelled.
- App.Lookup: matches paths exactly. The router also matches case-insensitively and ignores a trailing slash.
- TacticalMap.MapEffect.Render: the radar angle is a count of 0.02-radian steps, not a float sum, so floating-point rounding of the angle is not modelled.
- Canvas details:
  - the device-pixel-ratio scaling (components/TacticalMap.tsx:24-28);
  - the terrain curves' geometry (62-75);
  - colours, fonts, line widths, gradients and arc geometry.
  The terrain is one `TerrainContours` command.
- Effect lifecycle: when the effect restarts is not modelled. A `MapEffect` is one run of the effect, and `Animate` models a finite prefix of its frame loop. A restart would be a fresh `MapEffect`, with the radar angle back at 0.
  - The effect re-runs whenever `waypoints` or `scanning` is a different value by identity (components/TacticalMap.tsx:169), not only when the route changes.
  - The default `waypoints = []` (line 14) is a new array on every render. The planner passes `result?.waypoints`, which is undefined until the first result (pages/RoutePlanner.tsx:88). So before any result, every re-render of the planner restarts the effect and resets the radar angle to 0. That includes each keystroke in its form (lines 37, 45 and 53).
  - The cleanup `cancelAnimationFrame` (components/TacticalMap.tsx:168) runs before every restart as well as on unmount.
- Missing canvas: the effect returns early, drawing nothing, when the canvas element or its 2D context is absent (components/TacticalMap.tsx:18-21). The model assumes both exist.
- Timers and randomness:
  - the 2-second and 2.5-second intervals on the dashboard;
  - the 2-second delay before the mock arrives;
  - `Math.random`, whose values are parameters (`Tick`, `Refresh`).
  The random latitude and longitude shown on the planner map are not modelled.
- Async interleavings: each handler is two sequential steps. A second submission while one is pending is not modelled as a race.
- The service SDK: the prompt text, model name, response schema and system instruction. Its reply is an input outcome, and console logging is not modelled.
- GeminiService.GenerateRouteAnalysis: `JSON.parse(...) as AIResponse` is a cast, not a check, so a parsed value is taken as given. `riskLevel` stays a string.
- Presentational parts:
  - `Input`, `Select`, `StatBox` and `TerminalLog` (components/UiElements.tsx:76-126);
  - scrolling to the newest message or log line;
  - the dates and times shown in the header and the log;
  - the static cards of the dashboard (recent convoys, stat boxes).
- Settings.tsx is not part of this model: it is a static form with no logic. The route table only names its page.
- Layout.LayoutShell.NavClick: the router's history stack is not modelled, only the current path.
