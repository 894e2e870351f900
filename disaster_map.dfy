/**
 * The disaster map: how each disaster event becomes a marker (position,
 * title, colour, size, label) and where the map is centred. Magnitudes and
 * coordinates are reals; JavaScript's number-to-text conversion is a
 * parameter.
 */
module DisasterMap {
  import opened Wrappers
  import opened JsText

  datatype Coordinates = Coordinates(longitude: real, latitude: real)

  /** A disaster event; `kind` is the event's `type` ("earthquake", "flood", ...). */
  datatype DisasterEvent = DisasterEvent(
    id: string, kind: string, magnitude: real, place: string,
    time: int, coordinates: Coordinates, depth: real)

  /** A map position as the map component reads it. */
  datatype LatLng = LatLng(lat: real, lng: real)

  datatype Marker = Marker(id: string, position: LatLng, title: string, magnitude: real, kind: string)

  /** `${n}`: the text JavaScript gives a number in a template literal. */
  type NumberText = real -> string

  // ---------------------------------------------------------------------
  // Colour, size and label
  // ---------------------------------------------------------------------

  const Green: string := "#4CAF50"
  const Amber: string := "#FFC107"
  const Red: string := "#F44336"

  /** `getMarkerColor`: three magnitude bands, below 4, from 4 to below 6, and 6 or more. */
  function MarkerColor(magnitude: real): (c: string)
    ensures c == Green <==> magnitude < 4.0
    ensures c == Amber <==> 4.0 <= magnitude < 6.0
    ensures c == Red <==> magnitude >= 6.0
  {
    if magnitude < 4.0 then Green
    else if magnitude < 6.0 then Amber
    else Red
  }

  /** The band of a colour: green 0, amber 1, red 2. */
  function Severity(color: string): nat {
    if color == Green then 0 else if color == Amber then 1 else 2
  }

  /** A larger magnitude never gets a milder colour. */
  lemma ColorMonotone(m1: real, m2: real)
    requires m1 <= m2
    ensures Severity(MarkerColor(m1)) <= Severity(MarkerColor(m2))
  {
  }

  /** The marker's round dot: its width, height (in pixels) and background colour. */
  datatype MarkerStyle = MarkerStyle(width: real, height: real, color: string)

  /** The dot is a circle whose diameter is `10 + magnitude * 2`. */
  function StyleFor(magnitude: real): (s: MarkerStyle)
    ensures s.width == s.height == 10.0 + 2.0 * magnitude
    ensures s.color == MarkerColor(magnitude)
    ensures magnitude >= 0.0 ==> s.width >= 10.0
  {
    var side := 10.0 + magnitude * 2.0;
    MarkerStyle(side, side, MarkerColor(magnitude))
  }

  /** The diameter grows by two pixels per unit of magnitude. */
  lemma SizeLinearInMagnitude(m1: real, m2: real)
    ensures StyleFor(m2).width - StyleFor(m1).width == 2.0 * (m2 - m1)
  {
  }

  /** What the dot shows: the magnitude (printed with one decimal) for an earthquake, else an initial. */
  datatype MarkerLabel = MagnitudeLabel(magnitude: real) | InitialLabel(text: string)

  /** `type === 'earthquake' ? magnitude.toFixed(1) : type.charAt(0).toUpperCase()`. */
  function LabelFor(marker: Marker): (l: MarkerLabel)
    ensures l.MagnitudeLabel? <==> marker.kind == "earthquake"
    ensures l.MagnitudeLabel? ==> l.magnitude == marker.magnitude
    ensures l.InitialLabel? ==> |l.text| <= 1 && (l.text == [] <==> marker.kind == [])
    ensures l.InitialLabel? && marker.kind != [] ==> l.text == [ToUpperAscii(marker.kind[0])]
    ensures l.InitialLabel? ==> forall i :: 0 <= i < |l.text| ==> !IsAsciiLower(l.text[i])
  {
    if marker.kind == "earthquake" then MagnitudeLabel(marker.magnitude)
    else if marker.kind == [] then InitialLabel([])
    else InitialLabel([ToUpperAscii(marker.kind[0])])
  }

  // ---------------------------------------------------------------------
  // Events to markers
  // ---------------------------------------------------------------------

  /** `M ${magnitude} - ${place} (${type})`. */
  function MarkerTitle(magnitudeText: string, place: string, kind: string): string {
    "M " + magnitudeText + " - " + place + " (" + kind + ")"
  }

  /** The last index of `c` in `s`, or -1 when `c` does not occur. */
  function LastIndexOf(s: string, c: char): (k: int)
    ensures -1 <= k < |s|
    ensures k >= 0 ==> s[k] == c
    ensures forall i :: k < i < |s| ==> s[i] != c
  {
    if s == [] then -1
    else if s[|s| - 1] == c then |s| - 1
    else LastIndexOf(s[..|s| - 1], c)
  }

  /** The text between a title's last '(' and its closing ')'. */
  function KindFromTitle(title: string): Option<string> {
    var k := LastIndexOf(title, '(');
    if 0 <= k && k + 2 <= |title| && title[|title| - 1] == ')' then Some(title[k + 1..|title| - 1]) else None
  }

  /** A title ends in the event's type, which can be read back whenever the type holds no '('. */
  lemma {:induction false} KindReadBack(magnitudeText: string, place: string, kind: string)
    requires '(' !in kind
    ensures KindFromTitle(MarkerTitle(magnitudeText, place, kind)) == Some(kind)
  {
    var head := "M " + magnitudeText + " - " + place + " ";
    var title := MarkerTitle(magnitudeText, place, kind);
    assert title == head + "(" + kind + ")";
    assert title[|head|] == '(';
    forall i | |head| < i < |title| ensures title[i] != '(' {
      if i < |title| - 1 {
        assert title[i] == kind[i - |head| - 1];
      }
    }
    var k := LastIndexOf(title, '(');
    assert k == |head|;
    assert title[k + 1..|title| - 1] == kind;
  }

  /** The marker of one event. */
  function ToMarker(e: DisasterEvent, show: NumberText): (m: Marker)
    ensures m.id == e.id && m.magnitude == e.magnitude && m.kind == e.kind
    ensures m.position.lat == e.coordinates.latitude && m.position.lng == e.coordinates.longitude
    ensures m.title == MarkerTitle(show(e.magnitude), e.place, e.kind)
  {
    Marker(e.id, LatLng(e.coordinates.latitude, e.coordinates.longitude),
           MarkerTitle(show(e.magnitude), e.place, e.kind), e.magnitude, e.kind)
  }

  /** `disasterEvents.map(...)`: one marker per event, in the events' order. */
  function EventMarkers(events: seq<DisasterEvent>, show: NumberText): (ms: seq<Marker>)
    ensures |ms| == |events|
    ensures forall i :: 0 <= i < |events| ==> ms[i] == ToMarker(events[i], show)
  {
    if events == [] then []
    else [ToMarker(events[0], show)] + EventMarkers(events[1..], show)
  }

  /** The markers drawn: the events' markers when events are supplied (an empty list included), else the mock markers. */
  function Markers(events: Option<seq<DisasterEvent>>, mock: seq<Marker>, show: NumberText): (ms: seq<Marker>)
    ensures events.None? ==> ms == mock
    ensures events.Some? ==> |ms| == |events.value|
    ensures events.Some? ==> forall i :: 0 <= i < |ms| ==> ms[i] == ToMarker(events.value[i], show)
    ensures events.Some? ==> forall i :: 0 <= i < |ms| ==>
      && ms[i].id == events.value[i].id && ms[i].magnitude == events.value[i].magnitude
      && ms[i].kind == events.value[i].kind
      && ms[i].position == LatLng(events.value[i].coordinates.latitude, events.value[i].coordinates.longitude)
  {
    if events.Some? then EventMarkers(events.value, show) else mock
  }

  // ---------------------------------------------------------------------
  // The map centre
  // ---------------------------------------------------------------------

  /** Yangon, the centre before the effect runs. */
  const DefaultCenter: LatLng := LatLng(16.8409, 96.1735)

  /** What the effect stores in `mapCenter`: a `{lat, lng}` value or, for supplied events, the event's `{longitude, latitude}` object. */
  datatype CenterValue = LatLngLiteral(latLng: LatLng) | CoordinatesObject(coords: Coordinates)

  /** The centre the effect picks, as written. */
  function CenterAsWritten(events: Option<seq<DisasterEvent>>, markers: seq<Marker>, current: CenterValue): CenterValue {
    if |markers| > 0 && events.None? then LatLngLiteral(markers[0].position)
    else if events.Some? && |events.value| > 0 then CoordinatesObject(events.value[0].coordinates)
    else current
  }

  /** With events supplied, the written effect hands the map an object with no `lat` and no `lng`. */
  lemma CenterAsWrittenLacksLatLng(events: seq<DisasterEvent>, markers: seq<Marker>, current: CenterValue)
    requires |events| > 0
    ensures !CenterAsWritten(Some(events), markers, current).LatLngLiteral?
  {
  }

  /**
   * The centre the effect evidently means to pick: the first mock marker
   * when no events are supplied, the first event's position when some are,
   * and otherwise the current centre.
   */
  function CenterFor(events: Option<seq<DisasterEvent>>, markers: seq<Marker>, current: LatLng): (c: LatLng)
    ensures events.None? && |markers| > 0 ==> c == markers[0].position
    ensures events.Some? && |events.value| > 0 ==>
      c == LatLng(events.value[0].coordinates.latitude, events.value[0].coordinates.longitude)
    ensures (events.None? && |markers| == 0) || events == Some([]) ==> c == current
  {
    if |markers| > 0 && events.None? then markers[0].position
    else if events.Some? && |events.value| > 0 then
      LatLng(events.value[0].coordinates.latitude, events.value[0].coordinates.longitude)
    else current
  }

  /** Whatever was supplied, the map centres on the first marker drawn, and keeps its centre when nothing is drawn. */
  lemma CenterIsFirstMarker(events: Option<seq<DisasterEvent>>, mock: seq<Marker>, show: NumberText, current: LatLng)
    ensures var ms := Markers(events, mock, show);
      CenterFor(events, ms, current) == if |ms| > 0 then ms[0].position else current
  {
  }

  /** The map component's state: the API key and the centre. */
  class DisasterMapView {
    var apiKey: Option<string>
    var mapCenter: CenterValue

    /** Only a non-empty key is ever stored. */
    ghost predicate Valid()
      reads this
    {
      apiKey.Some? ==> apiKey.value != ""
    }

    constructor ()
      ensures Valid() && apiKey.None? && mapCenter == LatLngLiteral(DefaultCenter)
    {
      apiKey, mapCenter := None, LatLngLiteral(DefaultCenter);
    }

    /** Stores the environment's key when it is set and non-empty. */
    method StoreKey(envApiKey: Option<string>)
      requires Valid()
      modifies this`apiKey
      ensures Valid()
      ensures apiKey == if envApiKey.Some? && envApiKey.value != "" then envApiKey else old(apiKey)
    {
      if envApiKey.Some? && envApiKey.value != "" {
        apiKey := envApiKey;
      }
    }

    /**
     * The component's effect as written: store the key, then re-centre on
     * the first mock marker when no events are supplied, or on the first
     * event's `coordinates` object when some are.
     */
    method RunEffect(envApiKey: Option<string>, events: Option<seq<DisasterEvent>>, mock: seq<Marker>, show: NumberText)
      requires Valid()
      modifies this
      ensures Valid()
      ensures apiKey == if envApiKey.Some? && envApiKey.value != "" then envApiKey else old(apiKey)
      ensures mapCenter == CenterAsWritten(events, Markers(events, mock, show), old(mapCenter))
      ensures events.Some? && |events.value| > 0 ==> mapCenter.CoordinatesObject?
    {
      StoreKey(envApiKey);
      var markers := Markers(events, mock, show);
      if |markers| > 0 && events.None? {
        mapCenter := LatLngLiteral(markers[0].position);
      } else if events.Some? && |events.value| > 0 {
        mapCenter := CoordinatesObject(events.value[0].coordinates);
      }
    }

    /**
     * The effect as evidently intended: the same key handling, and the
     * centre becomes the first marker drawn, always a `{lat, lng}` value.
     */
    method RunEffectFixed(envApiKey: Option<string>, events: Option<seq<DisasterEvent>>, mock: seq<Marker>, show: NumberText)
      requires Valid()
      modifies this
      ensures Valid()
      ensures apiKey == if envApiKey.Some? && envApiKey.value != "" then envApiKey else old(apiKey)
      ensures var ms := Markers(events, mock, show);
        mapCenter == if |ms| > 0 then LatLngLiteral(ms[0].position) else old(mapCenter)
      ensures old(mapCenter).LatLngLiteral? ==>
        mapCenter == LatLngLiteral(CenterFor(events, Markers(events, mock, show), old(mapCenter).latLng))
    {
      StoreKey(envApiKey);
      var markers := Markers(events, mock, show);
      if |markers| > 0 && events.None? {
        mapCenter := LatLngLiteral(markers[0].position);
      } else if events.Some? && |events.value| > 0 {
        mapCenter := LatLngLiteral(LatLng(events.value[0].coordinates.latitude, events.value[0].coordinates.longitude));
      }
      if old(mapCenter).LatLngLiteral? {
        CenterIsFirstMarker(events, mock, show, old(mapCenter).latLng);
      }
    }
  }
}
