/** The route-generation handler, app/api/route/generate/route.js: checks the
    request, builds the longitude-first waypoint list for the routing
    service, and shapes the service's reply. The HTTP call itself is a
    parameter (`router`). */
module RouteApi {
  import opened Wrappers
  import opened Coords
  import Text

  /** One entry of the request's `viaPoints`: text (`"lat,lon"`), an array of
      items (each modelled by its text, which is what parseFloat reads), or
      any other JSON value. */
  datatype ViaPoint = ViaText(text: string) | ViaArray(items: seq<string>) | ViaOther

  /** The error responses the handler produces before and after routing. */
  datatype RouteError = KeyNotConfigured | EndpointsRequired | InvalidCoordinateFormat | NoRouteFound
  {
    function Status(): int {
      match this
      case KeyNotConfigured => 500
      case EndpointsRequired => 400
      case InvalidCoordinateFormat => 400
      case NoRouteFound => 404
    }

    function Message(): string {
      match this
      case KeyNotConfigured => "OpenRouteService API key not configured"
      case EndpointsRequired => "Start and end locations are required"
      case InvalidCoordinateFormat => "Invalid coordinate format. Use latitude,longitude"
      case NoRouteFound => "No route found"
    }
  }

  /** The first entry of a feature's `properties.segments`. */
  datatype Segment = Segment(distance: real, duration: real)
  /** A route feature: its geometry (`[lng, lat]` vertices) and its first segment, if any. */
  datatype Feature = Feature(geometry: seq<Pair>, firstSegment: Option<Segment>)
  /** The routing service's reply; a reply without data has no features. */
  datatype Reply = Reply(features: seq<Feature>)
  /** The `route` object of a successful response. */
  datatype RouteData = RouteData(geometry: seq<Pair>, distance: real, duration: real)

  /** A JavaScript value that is neither missing nor the empty string. */
  predicate Truthy(v: Option<string>) {
    v.Some? && v.value != ""
  }

  /** One via point as it enters the waypoint list (`[lon, lat]`), or None
      when it is silently dropped. */
  function ViaWaypoint(v: ViaPoint, parseFloat: FloatParser): Option<Pair> {
    match v
    case ViaText(text) =>
      if Text.Trim(text) != "" then
        match ParseCoordPair(text, parseFloat)
        case Some(coords) => Some(Swap(coords))
        case None => None
      else None
    case ViaArray(items) =>
      if |items| == 2 then
        match ParseItemPair(items, parseFloat)
        case Some(coords) => Some(Swap(coords))
        case None => None
      else None
    case ViaOther => None
  }

  /** Every malformed via point is dropped: blank text, text without exactly
      one comma or whose pieces do not both parse, an array whose length is
      not 2 or with an unparseable item, and any other value. */
  lemma MalformedViaPointDropped(v: ViaPoint, parseFloat: FloatParser)
    ensures v.ViaText? && Text.AllSpace(v.text) ==> ViaWaypoint(v, parseFloat).None?
    ensures v.ViaText? && Text.Count(v.text, ',') != 1 ==> ViaWaypoint(v, parseFloat).None?
    ensures v.ViaText? && ParseCoordPair(v.text, parseFloat).None? ==> ViaWaypoint(v, parseFloat).None?
    ensures v.ViaArray? && |v.items| != 2 ==> ViaWaypoint(v, parseFloat).None?
    ensures (v.ViaArray? && |v.items| == 2 && (parseFloat(v.items[0]).None? || parseFloat(v.items[1]).None?))
            ==> ViaWaypoint(v, parseFloat).None?
    ensures v.ViaOther? ==> ViaWaypoint(v, parseFloat).None?
  {
  }

  /** Well-formed via text is kept with its numbers swapped: `lat,lon`
      (exactly one comma, both trimmed pieces parse) becomes `[lon, lat]`. */
  lemma {:induction false} ViaTextKept(a: string, b: string, parseFloat: FloatParser)
    requires ',' !in a && ',' !in b
    requires parseFloat(Text.Trim(a)).Some? && parseFloat(Text.Trim(b)).Some?
    ensures ViaWaypoint(ViaText(a + "," + b), parseFloat)
            == Some(Pair(parseFloat(Text.Trim(b)).value, parseFloat(Text.Trim(a)).value))
  {
    var text := a + "," + b;
    ParseCoordPairText(a, b, parseFloat);
    var coords := ParseCoordPair(text, parseFloat);
    assert coords == Some(Pair(parseFloat(Text.Trim(a)).value, parseFloat(Text.Trim(b)).value));
    Text.NotBlankWithSeparator(text, |a|);
    assert Text.Trim(text) != "";
  }

  /** A two-item via array whose items both parse is kept as `[item1, item0]`. */
  lemma ViaArrayKept(a: string, b: string, parseFloat: FloatParser)
    requires parseFloat(a).Some? && parseFloat(b).Some?
    ensures ViaWaypoint(ViaArray([a, b]), parseFloat) == Some(Pair(parseFloat(b).value, parseFloat(a).value))
  {
  }

  /** `viaPoints.forEach(...)`: the kept via points, `[lon, lat]`, in order. */
  function ViaWaypoints(vs: seq<ViaPoint>, parseFloat: FloatParser): (ws: seq<Pair>)
    ensures |ws| <= |vs|
  {
    if |vs| == 0 then [] else ViaWaypoint(vs[0], parseFloat).ToSeq() + ViaWaypoints(vs[1..], parseFloat)
  }

  /** Via points keep their relative order: the waypoints of a concatenation
      are the concatenation of the waypoints. */
  lemma {:induction false} ViaWaypointsAppend(a: seq<ViaPoint>, b: seq<ViaPoint>, parseFloat: FloatParser)
    ensures ViaWaypoints(a + b, parseFloat) == ViaWaypoints(a, parseFloat) + ViaWaypoints(b, parseFloat)
    decreases |a|
  {
    if |a| == 0 {
      assert a + b == b;
    } else {
      var ab := a + b;
      assert ab[0] == a[0];
      assert ab[1..] == a[1..] + b;
      ViaWaypointsAppend(a[1..], b, parseFloat);
      assert ViaWaypoints(ab, parseFloat)
             == ViaWaypoint(a[0], parseFloat).ToSeq() + ViaWaypoints(a[1..] + b, parseFloat);
    }
  }

  /** A via point either vanishes from the list without a trace or occupies
      exactly its own place in it; nothing else around it changes. */
  lemma ViaPointInPlace(a: seq<ViaPoint>, v: ViaPoint, b: seq<ViaPoint>, parseFloat: FloatParser)
    ensures ViaWaypoints(a + [v] + b, parseFloat)
            == ViaWaypoints(a, parseFloat) + ViaWaypoint(v, parseFloat).ToSeq() + ViaWaypoints(b, parseFloat)
  {
    ViaWaypointsAppend(a + [v], b, parseFloat);
    ViaWaypointsAppend(a, [v], parseFloat);
    assert ViaWaypoints([v], parseFloat) == ViaWaypoint(v, parseFloat).ToSeq();
  }

  /** The request checks and the waypoint list sent to the routing service:
      `[startLon, startLat]`, the kept via points, `[endLon, endLat]`. The API
      key is checked first, then the presence of start and end, then their
      format. */
  function BuildWaypoints(apiKey: Option<string>, start: Option<string>, end: Option<string>,
                          viaPoints: seq<ViaPoint>, parseFloat: FloatParser)
    : (r: Result<seq<Pair>, RouteError>)
    ensures !Truthy(apiKey) ==> r == Err(KeyNotConfigured)
    ensures Truthy(apiKey) && !(Truthy(start) && Truthy(end)) ==>
              r == Err(EndpointsRequired) && r.error.Status() == 400
              && r.error.Message() == "Start and end locations are required"
    ensures Truthy(apiKey) && Truthy(start) && Truthy(end) ==>
              (r.Ok? <==> ParseCoordPair(start.value, parseFloat).Some? && ParseCoordPair(end.value, parseFloat).Some?)
    ensures Truthy(apiKey) && Truthy(start) && Truthy(end) && r.Err? ==>
              r.error == InvalidCoordinateFormat && r.error.Status() == 400
              && r.error.Message() == "Invalid coordinate format. Use latitude,longitude"
    ensures r.Err? ==> r.error != NoRouteFound
    ensures r.Ok? ==>
      var s := ParseCoordPair(start.value, parseFloat).value;
      var e := ParseCoordPair(end.value, parseFloat).value;
      var ws := r.value;
      && |ws| == |ViaWaypoints(viaPoints, parseFloat)| + 2
      && ws[0] == Pair(s.second, s.first)
      && ws[|ws| - 1] == Pair(e.second, e.first)
      && ws[1..|ws| - 1] == ViaWaypoints(viaPoints, parseFloat)
  {
    if !Truthy(apiKey) then Err(KeyNotConfigured)
    else if !Truthy(start) || !Truthy(end) then Err(EndpointsRequired)
    else
      var startCoords := ParseCoordPair(start.value, parseFloat);
      var endCoords := ParseCoordPair(end.value, parseFloat);
      if startCoords.None? || endCoords.None? then Err(InvalidCoordinateFormat)
      else
        Ok([Swap(startCoords.value)] + ViaWaypoints(viaPoints, parseFloat) + [Swap(endCoords.value)])
  }

  /** The response built from the routing service's reply: the first
      feature's geometry with the first segment's distance and duration (0
      and 0 without segments), or 404 when there is no feature. */
  function ShapeReply(reply: Reply): (r: Result<RouteData, RouteError>)
    ensures |reply.features| == 0 <==> r == Err(NoRouteFound)
    ensures r.Err? ==>
              (r.error == NoRouteFound && r.error.Status() == 404 && r.error.Message() == "No route found")
    ensures r.Ok? ==> r.value.geometry == reply.features[0].geometry
    ensures r.Ok? && reply.features[0].firstSegment.Some? ==>
              r.value.distance == reply.features[0].firstSegment.value.distance
              && r.value.duration == reply.features[0].firstSegment.value.duration
    ensures r.Ok? && reply.features[0].firstSegment.None? ==>
              r.value.distance == 0.0 && r.value.duration == 0.0
  {
    if |reply.features| > 0 then
      var route := reply.features[0];
      match route.firstSegment
      case Some(segment) => Ok(RouteData(route.geometry, segment.distance, segment.duration))
      case None => Ok(RouteData(route.geometry, 0.0, 0.0))
    else Err(NoRouteFound)
  }

  /** `POST /api/route/generate`, with the routing service as `router`. A
      missing API key gives the 500 error whatever else the request holds; a
      rejected request never reaches the router; an accepted one is routed
      along exactly the built waypoints. */
  function GenerateRoute(apiKey: Option<string>, start: Option<string>, end: Option<string>,
                         viaPoints: seq<ViaPoint>, parseFloat: FloatParser, router: seq<Pair> -> Reply)
    : (r: Result<RouteData, RouteError>)
    ensures !Truthy(apiKey) ==>
              (r == Err(KeyNotConfigured) && r.error.Status() == 500
               && r.error.Message() == "OpenRouteService API key not configured")
    ensures r.Err? && r.error.Status() == 404 ==>
              BuildWaypoints(apiKey, start, end, viaPoints, parseFloat).Ok?
              && |router(BuildWaypoints(apiKey, start, end, viaPoints, parseFloat).value).features| == 0
    ensures BuildWaypoints(apiKey, start, end, viaPoints, parseFloat).Err? ==>
              r == Err(BuildWaypoints(apiKey, start, end, viaPoints, parseFloat).error)
    ensures BuildWaypoints(apiKey, start, end, viaPoints, parseFloat).Ok? ==>
      var reply := router(BuildWaypoints(apiKey, start, end, viaPoints, parseFloat).value);
      && (|reply.features| == 0 ==> r == Err(NoRouteFound))
      && (|reply.features| > 0 ==> r.Ok? && r.value.geometry == reply.features[0].geometry)
      && (|reply.features| > 0 && reply.features[0].firstSegment.Some? ==>
            r.value.distance == reply.features[0].firstSegment.value.distance
            && r.value.duration == reply.features[0].firstSegment.value.duration)
      && (|reply.features| > 0 && reply.features[0].firstSegment.None? ==>
            r.value.distance == 0.0 && r.value.duration == 0.0)
  {
    match BuildWaypoints(apiKey, start, end, viaPoints, parseFloat)
    case Err(e) => Err(e)
    case Ok(coordinates) => ShapeReply(router(coordinates))
  }

  /** The outcome of a rejected request does not depend on the routing service. */
  lemma RejectedRequestIgnoresRouter(apiKey: Option<string>, start: Option<string>, end: Option<string>,
                                     viaPoints: seq<ViaPoint>, parseFloat: FloatParser,
                                     router1: seq<Pair> -> Reply, router2: seq<Pair> -> Reply)
    requires BuildWaypoints(apiKey, start, end, viaPoints, parseFloat).Err?
    ensures GenerateRoute(apiKey, start, end, viaPoints, parseFloat, router1)
            == GenerateRoute(apiKey, start, end, viaPoints, parseFloat, router2)
  {
  }
}
