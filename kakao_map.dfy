/**
 * `KakaoMap` (src/App.js:511-589): a map with one marker per accident and one
 * roadview pane per accident, of which only one side is shown at a time. The
 * Kakao `Map`/`Roadview` widgets are not modelled; only what they are given.
 */
module KakaoMap {
  import opened Accidents

  /** The `toggle` state; the source stores it as the strings "map" and "roadview". */
  datatype Toggle = MapMode | RoadviewMode

  function ToggleName(t: Toggle): (name: string)
    ensures name == "map" <==> t == MapMode
    ensures name == "roadview" <==> t == RoadviewMode
  {
    match t
    case MapMode => "map"
    case RoadviewMode => "roadview"
  }

  /** The other side. */
  function Flip(t: Toggle): (r: Toggle)
    ensures r != t
  {
    match t
    case MapMode => RoadviewMode
    case RoadviewMode => MapMode
  }

  /** The zoom level of the map and the search radius of each roadview. */
  const MapLevel: int := 7
  const RoadviewRadius: int := 50

  /** A `MapMarker`: its position and its title. */
  datatype Marker = Marker(position: LatLng, title: string)

  /**
   * A `Roadview` pane: where it looks, the position of its `RoadviewMarker`,
   * whether it is displayed and whether it shows the "map" button.
   */
  datatype RoadviewPane = RoadviewPane(
    position: LatLng,
    radius: int,
    markerPosition: LatLng,
    visible: bool,
    mapButton: bool)

  /** Everything the panel hands to the widgets for one value of `toggle`. */
  datatype PanelView = PanelView(
    center: LatLng,
    level: int,
    mapVisible: bool,
    roadviewButton: bool,
    markers: seq<Marker>,
    panes: seq<RoadviewPane>)

  /** `accidents.map(...)` into `MapMarker`s. */
  function Markers(accidents: seq<AccidentRecord>): (ms: seq<Marker>)
    ensures |ms| == |accidents|
    ensures forall i :: 0 <= i < |accidents| ==>
      ms[i].position == accidents[i].position && ms[i].title == accidents[i].spotName
    decreases |accidents|
  {
    if accidents == [] then []
    else [Marker(accidents[0].position, accidents[0].spotName)] + Markers(accidents[1..])
  }

  /** `accidents.map(...)` into `Roadview` panes, shown only in roadview mode. */
  function Panes(accidents: seq<AccidentRecord>, toggle: Toggle): (ps: seq<RoadviewPane>)
    ensures |ps| == |accidents|
    ensures forall i :: 0 <= i < |accidents| ==>
      && ps[i].position == accidents[i].position
      && ps[i].radius == RoadviewRadius
      && ps[i].markerPosition == accidents[i].position
      && (ps[i].visible <==> toggle == RoadviewMode)
      && (ps[i].mapButton <==> toggle == RoadviewMode)
    decreases |accidents|
  {
    if accidents == [] then []
    else
      var shown := toggle == RoadviewMode;
      [RoadviewPane(accidents[0].position, RoadviewRadius, accidents[0].position, shown, shown)] + Panes(accidents[1..], toggle)
  }

  /** What the panel renders; it reads `accidents[0]`, so the list must not be empty. */
  function View(accidents: seq<AccidentRecord>, toggle: Toggle): (v: PanelView)
    requires |accidents| > 0
    ensures v.center == accidents[0].position && v.level == MapLevel
    ensures v.mapVisible <==> toggle == MapMode
    ensures v.roadviewButton <==> toggle == MapMode
    ensures v.markers == Markers(accidents) && v.panes == Panes(accidents, toggle)
    ensures |v.markers| == |accidents| && |v.panes| == |accidents|
  {
    PanelView(accidents[0].position, MapLevel, toggle == MapMode, toggle == MapMode,
              Markers(accidents), Panes(accidents, toggle))
  }

  /** Exactly one side is displayed: either the map, or every roadview pane. */
  lemma OneSideVisible(accidents: seq<AccidentRecord>, toggle: Toggle, i: nat)
    requires 0 <= i < |accidents|
    ensures View(accidents, toggle).mapVisible != View(accidents, toggle).panes[i].visible
  {
  }

  /** Every button that is on screen switches to the side that is not. */
  lemma VisibleButtonsFlip(accidents: seq<AccidentRecord>, toggle: Toggle)
    requires |accidents| > 0
    ensures View(accidents, toggle).roadviewButton ==> RoadviewMode == Flip(toggle)
    ensures forall i :: 0 <= i < |accidents| && View(accidents, toggle).panes[i].mapButton ==>
      MapMode == Flip(toggle)
  {
  }

  /** The map/roadview panel and its `toggle` state. */
  class MapPanel {
    const accidents: seq<AccidentRecord>
    var toggle: Toggle

    ghost predicate Valid()
      reads this
    {
      |accidents| > 0
    }

    /** What the panel currently renders. */
    function Current(): PanelView
      reads this
      requires Valid()
    {
      View(accidents, toggle)
    }

    /** Mounting: `useState("map")`. */
    constructor (accidents: seq<AccidentRecord>)
      requires |accidents| > 0
      ensures Valid() && this.accidents == accidents
      ensures toggle == MapMode && ToggleName(toggle) == "map"
      ensures Current().mapVisible
    {
      this.accidents := accidents;
      toggle := MapMode;
    }

    /** The "roadview" button: `setToggle("roadview")`. */
    method ShowRoadview()
      requires Valid()
      modifies this
      ensures Valid() && toggle == RoadviewMode
      ensures old(Current().roadviewButton) ==> toggle == Flip(old(toggle))
      ensures !Current().mapVisible
    {
      toggle := RoadviewMode;
    }

    /** The "map" button of a roadview pane: `setToggle("map")`. */
    method ShowMap()
      requires Valid()
      modifies this
      ensures Valid() && toggle == MapMode
      ensures old(toggle) == RoadviewMode ==> toggle == Flip(old(toggle))
      ensures Current().mapVisible
    {
      toggle := MapMode;
    }
  }
}
