# Elderly-pedestrian accident dashboard — verified model of its logic

A Dafny model of the application logic in `src/App.js` of a React dashboard.
The dashboard shows accident hotspots for elderly pedestrians in Bupyeong-gu,
Incheon: it fetches one year's records from the public data service, draws them
as a line chart, and places them on a map with a roadview toggle. The views sit
behind a username-only login gate. The model covers five parts:

- **Data fetcher** (`fetcher.dfy`, module `Fetcher`). `RequestUrl` is the query
  URL of `fetchData` for a year and a service key. `FetchOutcome` is how the
  promise settles.
- **Report view** (`report_view.dfy`, module `ReportView`). `Main`'s four state
  variables form `ViewState`. Its events are a year press, a fetch start and a
  fetch completion; `Step` applies one event and `Run` a sequence of them.
  `Render` is the ordered render decision. The class `MainView` holds the same
  state in fields, and its methods update them as the handlers and the effect do.
- **Session gate** (`session.dfy`, module `Session`). The class `AuthProvider`
  is the context provider with `signIn`/`signOut`; the source names this
  component `HashRouter`. `HeaderFor` is `Layout`'s greeting line and `Gated` is
  `AuthRequired`.
- **Chart rows** (`chart.dfy`, module `Chart`). `ChartRows` is `Rechart`'s
  `accidents.map(...)`.
- **Map panel** (`kakao_map.dfy`, module `KakaoMap`). `View` is the data
  `KakaoMap` passes to the map and roadview widgets. The class `MapPanel` holds
  the `toggle` state and its two button handlers.

`accidents.dfy` holds the record types and `wrappers.dfy` holds `Option`/`Result`.

Asynchronous completions are separate events applied one after another. The
model accepts every sequence of events, which is more than the component can
produce. In the source, the year buttons exist only on the ready screen: the
early returns at src/App.js:107-113 come before them. Each press's effect then
clears `isLoaded` (src/App.js:95). The model therefore over-approximates the
possible event orders, and what it proves for all sequences holds for the
source's sequences in particular. A completion's report is shown whatever year
is current when it arrives. `StaleResponseShownUnderNewYear` exhibits an older
answer arriving last and being shown under the newer year.

One might expect a year change to clear an earlier error, but the code never
resets `error` (src/App.js:87, 102). The model follows the code.
`FailureIsPermanent` proves that, while `Main` stays mounted, the view shows
"failed to fetch" after one failure whatever happens next.

## Model

| member | source | states |
|---|---|---|
| `Fetcher.Decimal` | src/App.js:38 | the year is printed with a leading `-` exactly when it is negative, followed by decimal digits only, with no leading zero (apart from `0` itself) |
| `Fetcher.RequestUrl` | src/App.js:28-38 | the URL is the endpoint, `?`, and the seven parameters `serviceKey`, `searchYearCd`, `siDo`, `guGun`, `type`, `numOfRows`, `pageNo` joined by `&`, in that order; equivalently, the part before the year (endpoint, `?serviceKey=`, the key, `&searchYearCd=`), then the year, then a suffix that is the same for every call |
| `Fetcher.DecimalRoundTrip` | src/App.js:38 | the year as the template renders it (`-` and decimal digits) reads back as the same integer |
| `Fetcher.DecimalInjective` | src/App.js:38 | two years render to the same text exactly when they are equal |
| `Fetcher.KeyText` | src/App.js:30-38 | a set service key appears verbatim; an unset one renders as "undefined" |
| `Fetcher.ConstantParameterText` | src/App.js:31-35 | the fixed parameters render as `28`, `237`, `10` and `1` |
| `Fetcher.OnlyKeyAndYearVary` | src/App.js:31-38 | across any two calls, the parameter names and the last five values are identical; only the key and the year differ |
| `Fetcher.RequestUrlDeterminesYear` | src/App.js:37-38 | with a fixed key, two requests have the same URL exactly when they ask for the same year |
| `Fetcher.FetchOutcome` | src/App.js:39-44 | success exactly when a response arrived with status 200-299 and a parsable body, and then the result is that body unchanged; an unreachable service and a non-ok status fail |
| `Fetcher.NotOkBodyIgnored` | src/App.js:40-42 | a non-ok response fails whatever its body is: the body is never parsed |
| `Chart.SubstringFrom` | src/App.js:479 | `substring(9)` is empty for a name of at most 9 characters; otherwise the name is its first 9 characters followed by the result |
| `Chart.ToRow` | src/App.js:478-483 | a row's name is `spot_nm` from index 9 on; the three counts are copied unchanged |
| `Chart.ChartRows` | src/App.js:477-484 | one row per record, same length, row `i` built from record `i` |
| `Chart.ChartRowsAppend` | src/App.js:477-484 | reshaping a concatenation gives the concatenation of the reshaped parts, so order is kept |
| `Chart.ChartSeriesAreCounts` | src/App.js:479-482 | row `i` carries record `i`'s three counts, and its name has 9 characters fewer than `spot_nm`, or none |
| `KakaoMap.ToggleName` | src/App.js:512 | the two modes are the strings "map" and "roadview" the source stores |
| `KakaoMap.Markers` | src/App.js:524-532 | one marker per accident, in order, at its coordinates and titled with its `spot_nm` |
| `KakaoMap.Panes` | src/App.js:551-586 | one roadview pane per accident at its coordinates with radius 50 and a roadview marker at the same coordinates; each is displayed, and shows the "map" button, exactly in roadview mode |
| `KakaoMap.View` | src/App.js:514-589 | the map is centred on the first accident at level 7; it is displayed, with its "roadview" button, exactly in map mode; its markers are `Markers(accidents)` and its panes `Panes(accidents, toggle)`, one of each per accident |
| `KakaoMap.OneSideVisible` | src/App.js:518-559 | the map and the roadview panes are never displayed together, and one of them always is |
| `KakaoMap.VisibleButtonsFlip` | src/App.js:534-583 | every button on screen switches to the other mode |
| `KakaoMap.MapPanel.constructor` | src/App.js:512 | the panel starts in map mode with the map displayed |
| `KakaoMap.MapPanel.ShowRoadview` | src/App.js:543 | the "roadview" button sets roadview mode, which flips map mode and hides the map |
| `KakaoMap.MapPanel.ShowMap` | src/App.js:579 | the "map" button sets map mode, which flips roadview mode and shows the map |
| `Session.HeaderFor` | src/App.js:207-219 | the greeting with the user's name is shown exactly when the user is present and non-empty; otherwise the login prompt |
| `Session.Gated` | src/App.js:236-254 | the wrapped content is shown exactly when the user is present and non-empty; otherwise the login form |
| `Session.GateAndHeaderAgree` | src/App.js:207-254 | the greeting and the gated content appear together or not at all |
| `Session.SubmittedName` | src/App.js:230-244 | the required username field lets the form through exactly when it is non-empty, and then the name passed on opens the gate |
| `Session.AuthProvider.constructor` | src/App.js:172 | the session starts signed out |
| `Session.AuthProvider.SignIn` | src/App.js:174-176 | after `signIn(u)` the user is `u`; the gate is open exactly when `u` is non-empty |
| `Session.AuthProvider.SignOut` | src/App.js:178-180 | after `signOut()` the user is null and the header shows the login prompt |
| `Session.AuthProvider.SubmitLoginForm` | src/App.js:230-235 | submitting a non-empty username signs that user in and greets them; an empty field changes nothing |
| `ReportView.Initial` | src/App.js:87-90 | on mount: no error, not loaded, no data, year 2015 |
| `ReportView.Completion` | src/App.js:97-104 | a fulfilled fetch becomes a success event carrying the body; a rejected one becomes a failure event carrying the reason |
| `ReportView.Step` | src/App.js:94-105 | a year press moves the year by one and changes nothing else. Starting a fetch clears only `isLoaded`. Success replaces `data` and failure sets `error`, and both then set `isLoaded`. No event resets `error`, and every event preserves coherence |
| `ReportView.ContentFor` | src/App.js:142-163 | the summary sentence with `totalCount`, the chart and the map are shown exactly when `totalCount > 0`, the latter two fed with `items.item` in order; otherwise "no data" with no count |
| `ReportView.Render` | src/App.js:107-163 | "failed" exactly when `error` is set; otherwise "fetching" exactly when not loaded; otherwise the ready view for the current year and the loaded report |
| `ReportView.RunPreservesCoherent` | src/App.js:87-143 | along every sequence of events, a loaded view without error has data, so the render never dereferences a null report |
| `ReportView.FailureIsPermanent` | src/App.js:87-108 | once `error` is set, every later state keeps it and renders "failed" |
| `ReportView.PressesMoveYear` | src/App.js:126-138 | `n` presses of "previous" or "next" move the year by exactly `n` and change nothing else |
| `ReportView.EveryYearReachable` | src/App.js:128-135 | every integer year is reached by pressing one button: the year has no bound |
| `ReportView.CompletionTakesCurrentYear` | src/App.js:94-105 | a successful response is displayed as the report of whatever year is current when it arrives |
| `ReportView.StaleResponseShownUnderNewYear` | src/App.js:94-105 | after the mount request is answered, two quick "next" presses leave requests for 2016 and 2017 both open. If the 2017 answer arrives first and the 2016 answer last, the 2016 report stays displayed under 2017 |
| `ReportView.NextTwiceRequestsThreeYears` | src/App.js:90-135 | from 2015, pressing "next" twice, with each fetch run, requests 2015, 2016 and 2017 in that order |
| `ReportView.ReadyFeedsBothAdapters` | src/App.js:142-163 | when chart and map are shown, the map receives `items.item` itself and chart row `i` is record `i` reshaped, carrying all three of its counts |
| `ReportView.MainView.constructor` | src/App.js:87-90 | the component mounts in the initial state, renders "fetching", and has issued no request |
| `ReportView.MainView.PreviousYear` | src/App.js:128 | the fields move exactly as `Step` does for "previous year": the year decreases by one |
| `ReportView.MainView.NextYear` | src/App.js:135 | the fields move exactly as `Step` does for "next year": the year increases by one |
| `ReportView.MainView.StartFetch` | src/App.js:94-97 | `isLoaded` is cleared, and the request issued is `RequestUrl` for the current year |
| `ReportView.MainView.Complete` | src/App.js:97-104 | the fields move as `Step` does for the settled outcome; a success with no earlier error renders the received report and a failure renders "failed" |

## Left out

- The network call, `res.json()` and `process.env`. These are foreign I/O. The service key is a parameter, and what the network delivers is the `Fetcher.Transport` value. A parse failure is a body of `None`.
- Promise scheduling and `useEffect` timing. A fetch start and its completion are separate events, in any order and any number. The model does not say that the effect runs exactly once after each year change; the events are supplied by the caller.
- ReportView.MainView.Complete: the `.then`/`.catch` callback and the `.finally` callback are one event. A render between them shows either the screen before the merged event or the one after it. Once `error` is set, that is "failed to fetch": after `.catch`, or when an earlier error is set. Otherwise it is "fetching" while `isLoaded` is still false.
- Unmounting and remounting `Main` is not modelled. Navigating to another route or signing out unmounts it (src/App.js:57-58, 236-252). A later mount starts again from the initial state, so `error` is cleared. `ReportView.FailureIsPermanent` speaks of one mounted instance.
- ReportView.StaleResponseShownUnderNewYear: the source reaches this order only if the second "next" press lands after the first press's effect has requested 2016 (src/App.js:94-97) but before the re-render that hides the buttons once `isLoaded` is cleared (src/App.js:95, 107-113).
- React rendering, Recharts and the Kakao `Map`/`Roadview` widgets are external libraries. Only the data handed to them is modelled, together with CSS `display` as a visibility flag. React `key`s, CSS classes and the Korean texts are not modelled.
- The route table (src/App.js:48-84) and `react-router-dom` path matching are library configuration.
- `News`, `Video` and `NotFound` (src/App.js:258-473) are static markup.
- `console.log` calls.
- KakaoMap.View: requires a non-empty list, as `accidents[0]` does. A report whose `totalCount` is positive but whose `items.item` is empty would make the source throw. `ReportView.Render` still returns the chart and map content for it.
- Fetcher.Decimal: years are unbounded integers. In the source the year is a JavaScript number, which loses precision above 2^53 and prints in exponent notation from 10^21 on.
- Chart.SubstringFrom: counts characters, whereas JavaScript counts UTF-16 code units. They differ for characters outside the Basic Multilingual Plane.
- The report body keeps only the fields the view reads (`totalCount`, `items.item` and the six record fields). A body of another shape is not modelled.
