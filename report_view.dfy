/**
 * `Main` (src/App.js:86-168): the year-scoped report view. Its four pieces of
 * React state are `ViewState`; button presses and the asynchronous steps of
 * the fetch effect arrive as `Event`s, one at a time, and `Step` says what each
 * does. `Render` is the decision the component's body makes on every render.
 * The class `MainView` keeps the same state in fields and updates it in place.
 */
module ReportView {
  import opened Wrappers
  import opened Accidents
  import opened Fetcher
  import opened Chart

  /** `useState(2015)`. */
  const InitialYear: int := 2015

  /** `error`, `isLoaded`, `data` and `searchYearCd`. */
  datatype ViewState = ViewState(
    error: Option<FetchError>,
    isLoaded: bool,
    data: Option<AccidentReport>,
    searchYearCd: int)

  /** The state on mount: no error, not loaded, no data, year 2015. */
  function Initial(): (s: ViewState)
    ensures s.error.None? && !s.isLoaded && s.data.None? && s.searchYearCd == InitialYear
  {
    ViewState(None, false, None, InitialYear)
  }

  /** Everything that changes the state. */
  datatype Event =
    | PreviousYear                          // the "이전년도" button
    | NextYear                              // the "다음년도" button
    | FetchStarted                          // the effect runs: `setIsLoaded(false)`, request issued
    | FetchSucceeded(report: AccidentReport) // `.then(setData)` and `.finally`
    | FetchFailed(error: FetchError)         // `.catch(setError)` and `.finally`

  /** The completion event for a settled `fetchData` promise. */
  function Completion(outcome: Result<AccidentReport, FetchError>): (e: Event)
    ensures outcome.Success? ==> e == FetchSucceeded(outcome.value)
    ensures outcome.Failure? ==> e == FetchFailed(outcome.error)
  {
    match outcome
    case Success(report) => FetchSucceeded(report)
    case Failure(err) => FetchFailed(err)
  }

  /**
   * The state the render relies on: once loaded without an error, `data` is
   * present (the body dereferences `data.totalCount` there).
   */
  predicate Coherent(s: ViewState) {
    s.isLoaded && s.error.None? ==> s.data.Some?
  }

  function Step(s: ViewState, e: Event): (r: ViewState)
    ensures Coherent(s) ==> Coherent(r)
    ensures s.error.Some? ==> r.error.Some?
    ensures e.PreviousYear? ==> r == s.(searchYearCd := s.searchYearCd - 1)
    ensures e.NextYear? ==> r == s.(searchYearCd := s.searchYearCd + 1)
    ensures e.FetchStarted? ==> r == s.(isLoaded := false)
    ensures e.FetchSucceeded? ==> r == s.(data := Some(e.report), isLoaded := true)
    ensures e.FetchFailed? ==> r == s.(error := Some(e.error), isLoaded := true)
  {
    match e
    case PreviousYear => s.(searchYearCd := s.searchYearCd - 1)
    case NextYear => s.(searchYearCd := s.searchYearCd + 1)
    case FetchStarted => s.(isLoaded := false)
    case FetchSucceeded(report) => s.(data := Some(report), isLoaded := true)
    case FetchFailed(err) => s.(error := Some(err), isLoaded := true)
  }

  /** The state after a sequence of events. */
  function Run(s: ViewState, es: seq<Event>): ViewState
    decreases |es|
  {
    if es == [] then s else Run(Step(s, es[0]), es[1..])
  }

  /** The years for which requests are issued along a sequence of events, in order. */
  function RequestedYears(s: ViewState, es: seq<Event>): seq<int>
    decreases |es|
  {
    if es == [] then []
    else (if es[0].FetchStarted? then [s.searchYearCd] else []) + RequestedYears(Step(s, es[0]), es[1..])
  }

  // ---------------------------------------------------------------------
  // Rendering.
  // ---------------------------------------------------------------------

  /** What the ready view shows below its heading and year controls. */
  datatype Content =
    | Visuals(totalCount: int, rows: seq<ChartRow>, accidents: seq<AccidentRecord>)
        // the summary sentence with `totalCount`, then `Rechart` and `KakaoMap`
    | NoData  // "해당 년도 자료가 없습니다", with no count

  /** The three outcomes of `Main`'s body. */
  datatype Screen =
    | Failed                                              // "failed to fetch"
    | Fetching                                            // "fetching data..."
    | Ready(year: int, content: Content)                  // heading, year controls, content

  function ContentFor(report: AccidentReport): (c: Content)
    ensures c.Visuals? <==> report.totalCount > 0
    ensures c.Visuals? ==> c.totalCount == report.totalCount
    ensures c.Visuals? ==> c.accidents == report.items && |c.rows| == |report.items|
    ensures c.Visuals? ==> forall i :: 0 <= i < |c.rows| ==> c.rows[i] == ToRow(report.items[i])
  {
    if report.totalCount > 0 then Visuals(report.totalCount, ChartRows(report.items), report.items) else NoData
  }

  function Render(s: ViewState): (screen: Screen)
    requires Coherent(s)
    ensures screen.Failed? <==> s.error.Some?
    ensures screen.Fetching? <==> s.error.None? && !s.isLoaded
    ensures screen.Ready? <==> s.error.None? && s.isLoaded
    ensures screen.Ready? ==> screen.year == s.searchYearCd
    ensures screen.Ready? ==> screen.content == ContentFor(s.data.value)
  {
    if s.error.Some? then Failed
    else if !s.isLoaded then Fetching
    else Ready(s.searchYearCd, ContentFor(s.data.value))
  }

  // ---------------------------------------------------------------------
  // Properties of runs.
  // ---------------------------------------------------------------------

  /** Every state reachable from a coherent one is coherent, so `Render` is always defined. */
  lemma {:induction false} RunPreservesCoherent(s: ViewState, es: seq<Event>)
    requires Coherent(s)
    ensures Coherent(Run(s, es))
    decreases |es|
  {
    if es != [] {
      RunPreservesCoherent(Step(s, es[0]), es[1..]);
    }
  }

  /** Nothing resets `error`: after one failure the view renders "failed" for good. */
  lemma {:induction false} FailureIsPermanent(s: ViewState, es: seq<Event>)
    requires s.error.Some?
    ensures Run(s, es).error.Some?
    ensures Render(Run(s, es)) == Failed
    decreases |es|
  {
    if es != [] {
      FailureIsPermanent(Step(s, es[0]), es[1..]);
    }
  }

  /** `n` presses of the same year button. */
  function Presses(e: Event, n: nat): (es: seq<Event>)
    ensures |es| == n
    decreases n
  {
    if n == 0 then [] else [e] + Presses(e, n - 1)
  }

  /** Each press of "previous" or "next" moves the year by exactly one and changes nothing else. */
  lemma {:induction false} PressesMoveYear(s: ViewState, n: nat)
    ensures Run(s, Presses(PreviousYear, n)) == s.(searchYearCd := s.searchYearCd - n)
    ensures Run(s, Presses(NextYear, n)) == s.(searchYearCd := s.searchYearCd + n)
    decreases n
  {
    if n > 0 {
      PressesMoveYear(Step(s, PreviousYear), n - 1);
      PressesMoveYear(Step(s, NextYear), n - 1);
    }
  }

  /** The year has no bound: every integer year is reached by pressing one button often enough. */
  lemma EveryYearReachable(s: ViewState, year: int)
    ensures year >= s.searchYearCd ==>
      Run(s, Presses(NextYear, year - s.searchYearCd)) == s.(searchYearCd := year)
    ensures year < s.searchYearCd ==>
      Run(s, Presses(PreviousYear, s.searchYearCd - year)) == s.(searchYearCd := year)
  {
    if year >= s.searchYearCd {
      PressesMoveYear(s, year - s.searchYearCd);
    } else {
      PressesMoveYear(s, s.searchYearCd - year);
    }
  }

  /**
   * A completion is not matched against the year it was requested for: whatever
   * the current year, a successful response is shown as that year's report.
   */
  lemma CompletionTakesCurrentYear(s: ViewState, report: AccidentReport)
    requires s.error.None?
    ensures Render(Step(s, FetchSucceeded(report))) == Ready(s.searchYearCd, ContentFor(report))
  {
  }

  /** Unfolding one event at the head of a run. */
  lemma RunCons(s: ViewState, e: Event, rest: seq<Event>)
    ensures Run(s, [e] + rest) == Run(Step(s, e), rest)
    ensures RequestedYears(s, [e] + rest)
         == (if e.FetchStarted? then [s.searchYearCd] else []) + RequestedYears(Step(s, e), rest)
  {
    assert ([e] + rest)[1..] == rest;
  }

  /**
   * The mount request is answered; then "next" is pressed twice, the second
   * press landing after the first press's effect has requested 2016 but
   * before the re-render that hides the buttons, so requests for 2016 and
   * 2017 are both outstanding. The 2017 answer arrives
   * first and the 2016 answer last: the 2016 report stays displayed under 2017.
   */
  lemma StaleResponseShownUnderNewYear(r2015: AccidentReport, r2017: AccidentReport, r2016: AccidentReport)
    ensures
      var es := [FetchStarted, FetchSucceeded(r2015), NextYear, FetchStarted, NextYear, FetchStarted,
                 FetchSucceeded(r2017), FetchSucceeded(r2016)];
      && RequestedYears(Initial(), es) == [2015, 2016, 2017]
      && Run(Initial(), es) == ViewState(None, true, Some(r2016), 2017)
      && Render(Run(Initial(), es)) == Ready(2017, ContentFor(r2016))
  {
    var s0 := Initial();
    var s1 := Step(s0, FetchStarted);
    var s2 := Step(s1, FetchSucceeded(r2015));
    var s3 := Step(s2, NextYear);
    var s4 := Step(s3, FetchStarted);
    var s5 := Step(s4, NextYear);
    var s6 := Step(s5, FetchStarted);
    var s7 := Step(s6, FetchSucceeded(r2017));
    var e7: seq<Event> := [FetchSucceeded(r2016)];
    var e6 := [FetchSucceeded(r2017)] + e7;
    var e5 := [FetchStarted] + e6;
    var e4 := [NextYear] + e5;
    var e3 := [FetchStarted] + e4;
    var e2 := [NextYear] + e3;
    var e1 := [FetchSucceeded(r2015)] + e2;
    var e0 := [FetchStarted] + e1;
    RunCons(s7, FetchSucceeded(r2016), []);
    RunCons(s6, FetchSucceeded(r2017), e7);
    RunCons(s5, FetchStarted, e6);
    RunCons(s4, NextYear, e5);
    RunCons(s3, FetchStarted, e4);
    RunCons(s2, NextYear, e3);
    RunCons(s1, FetchSucceeded(r2015), e2);
    RunCons(s0, FetchStarted, e1);
    assert e0 == [FetchStarted, FetchSucceeded(r2015), NextYear, FetchStarted, NextYear, FetchStarted,
                  FetchSucceeded(r2017), FetchSucceeded(r2016)];
  }

  /**
   * Starting at 2015 and pressing "next" twice, each press followed by the
   * fetch it triggers and a successful answer, requests 2015, 2016 and 2017.
   */
  lemma NextTwiceRequestsThreeYears(r1: AccidentReport, r2: AccidentReport, r3: AccidentReport)
    ensures
      var es := [FetchStarted, FetchSucceeded(r1), NextYear, FetchStarted, FetchSucceeded(r2),
                 NextYear, FetchStarted, FetchSucceeded(r3)];
      RequestedYears(Initial(), es) == [2015, 2016, 2017]
  {
    var s0 := Initial();
    var s1 := Step(s0, FetchStarted);
    var s2 := Step(s1, FetchSucceeded(r1));
    var s3 := Step(s2, NextYear);
    var s4 := Step(s3, FetchStarted);
    var s5 := Step(s4, FetchSucceeded(r2));
    var s6 := Step(s5, NextYear);
    var s7 := Step(s6, FetchStarted);
    var e7: seq<Event> := [FetchSucceeded(r3)];
    var e6 := [FetchStarted] + e7;
    var e5 := [NextYear] + e6;
    var e4 := [FetchSucceeded(r2)] + e5;
    var e3 := [FetchStarted] + e4;
    var e2 := [NextYear] + e3;
    var e1 := [FetchSucceeded(r1)] + e2;
    var e0 := [FetchStarted] + e1;
    RunCons(s7, FetchSucceeded(r3), []);
    RunCons(s6, FetchStarted, e7);
    RunCons(s5, NextYear, e6);
    RunCons(s4, FetchSucceeded(r2), e5);
    RunCons(s3, FetchStarted, e4);
    RunCons(s2, NextYear, e3);
    RunCons(s1, FetchSucceeded(r1), e2);
    RunCons(s0, FetchStarted, e1);
    assert e0 == [FetchStarted, FetchSucceeded(r1), NextYear, FetchStarted, FetchSucceeded(r2),
                  NextYear, FetchStarted, FetchSucceeded(r3)];
  }

  /** A ready report hands every record, in order, to both the chart and the map. */
  lemma ReadyFeedsBothAdapters(s: ViewState)
    requires Coherent(s) && Render(s).Ready? && Render(s).content.Visuals?
    ensures Render(s).content.accidents == s.data.value.items
    ensures |Render(s).content.rows| == |s.data.value.items|
    ensures s.data.value.totalCount > 0 && Render(s).content.totalCount == s.data.value.totalCount
    ensures forall i :: 0 <= i < |s.data.value.items| ==>
      && Render(s).content.rows[i] == ToRow(s.data.value.items[i])
      && Render(s).content.rows[i].occurrences == s.data.value.items[i].occurrences
      && Render(s).content.rows[i].seriousInjuries == s.data.value.items[i].seriousInjuries
      && Render(s).content.rows[i].deaths == s.data.value.items[i].deaths
  {
  }

  // ---------------------------------------------------------------------
  // The component, with its state updated in place.
  // ---------------------------------------------------------------------

  class MainView {
    var error: Option<FetchError>
    var isLoaded: bool
    var data: Option<AccidentReport>
    var searchYearCd: int
    /** `process.env.REACT_APP_SERVICE_KEY`, read once. */
    const serviceKey: Option<string>
    /** The URLs requested so far, oldest first. */
    ghost var requests: seq<string>

    function State(): ViewState
      reads this
    {
      ViewState(error, isLoaded, data, searchYearCd)
    }

    ghost predicate Valid()
      reads this
    {
      Coherent(State())
    }

    /** What the component currently renders. */
    function CurrentScreen(): (screen: Screen)
      reads this
      requires Valid()
    {
      Render(State())
    }

    constructor (serviceKey: Option<string>)
      ensures Valid() && State() == Initial() && this.serviceKey == serviceKey
      ensures requests == []
      ensures CurrentScreen() == Fetching
    {
      this.serviceKey := serviceKey;
      error := None;
      isLoaded := false;
      data := None;
      searchYearCd := InitialYear;
      requests := [];
    }

    /** `setSearchYearCd(searchYearCd - 1)`. */
    method PreviousYear()
      requires Valid()
      modifies this
      ensures Valid() && State() == Step(old(State()), Event.PreviousYear)
      ensures searchYearCd == old(searchYearCd) - 1 && requests == old(requests)
    {
      searchYearCd := searchYearCd - 1;
    }

    /** `setSearchYearCd(searchYearCd + 1)`. */
    method NextYear()
      requires Valid()
      modifies this
      ensures Valid() && State() == Step(old(State()), Event.NextYear)
      ensures searchYearCd == old(searchYearCd) + 1 && requests == old(requests)
    {
      searchYearCd := searchYearCd + 1;
    }

    /** The effect body up to the request: `setIsLoaded(false)`, then `fetchData(searchYearCd)`. */
    method StartFetch() returns (url: string)
      requires Valid()
      modifies this
      ensures Valid() && State() == Step(old(State()), FetchStarted)
      ensures url == RequestUrl(serviceKey, searchYearCd)
      ensures requests == old(requests) + [url]
      ensures CurrentScreen() == (if error.Some? then Failed else Fetching)
    {
      isLoaded := false;
      url := RequestUrl(serviceKey, searchYearCd);
      requests := requests + [url];
    }

    /** The fetch promise settles with what the network delivered: `then`/`catch`, then `finally`. */
    method Complete(t: Transport)
      requires Valid()
      modifies this
      ensures Valid() && State() == Step(old(State()), Completion(FetchOutcome(t)))
      ensures requests == old(requests) && isLoaded
      ensures FetchOutcome(t).Success? && old(error).None? ==>
        CurrentScreen() == Ready(searchYearCd, ContentFor(FetchOutcome(t).value))
      ensures FetchOutcome(t).Failure? ==> CurrentScreen() == Failed
    {
      match FetchOutcome(t) {
        case Success(report) => data := Some(report);
        case Failure(err) => error := Some(err);
      }
      isLoaded := true;
    }
  }
}
