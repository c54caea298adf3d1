/** The pure parts of components/MapView.js around the widgets: the route
    geometry conversion, where a delivery's marker goes, the list of points
    the map is fitted to, and the initial map centre. */
module MapView {
  import opened Wrappers
  import opened Coords

  /** A delivery as the map reads it: the stored `drop_point_coords`
      (`[lat, lon]`, or null) and the `drop_point` text ("" when empty or
      missing, both falsy). */
  datatype Delivery = Delivery(dropPointCoords: Option<Pair>, dropPoint: string)

  /** `[51.505, -0.09]`, the default centre (London). */
  const DefaultCenter: seq<real> := [51.505, -0.09]

  /** The polyline drawn for the route (`routeCoordinates`): the service's
      `[lng, lat]` geometry turned into `[lat, lng]`, or nothing when there is
      no geometry. */
  function RouteCoordinates(geometry: Option<seq<Pair>>): (coords: seq<Pair>)
    ensures geometry.None? ==> coords == []
    ensures geometry.Some? ==> |coords| == |geometry.value|
    ensures geometry.Some? ==> forall i :: 0 <= i < |coords| ==>
              coords[i].first == geometry.value[i].second && coords[i].second == geometry.value[i].first
  {
    if geometry.Some? then SwapAll(geometry.value) else []
  }

  /** What one delivery adds to the bounds list: its stored coordinates, or
      else its drop-point text read as `"lat,lon"`, or nothing. */
  function DeliveryBoundsPoints(d: Delivery, parseFloat: FloatParser): seq<Pair> {
    if d.dropPointCoords.Some? then [d.dropPointCoords.value]
    else if d.dropPoint != "" then
      match ParseCoordPair(d.dropPoint, parseFloat)
      case Some(coords) => [coords]
      case None => []
    else []
  }

  /** Where a delivery's marker is drawn, or None when the marker is skipped.
      Stored coordinates win; without them the drop-point text is read as
      `"lat,lon"` (an empty text never reads as a pair). */
  function MarkerPosition(d: Delivery, parseFloat: FloatParser): (coords: Option<Pair>)
    ensures d.dropPointCoords.Some? ==> coords == d.dropPointCoords
    ensures d.dropPointCoords.None? ==> coords == ParseCoordPair(d.dropPoint, parseFloat)
  {
    if d.dropPointCoords.Some? then d.dropPointCoords
    else if d.dropPoint != "" then ParseCoordPair(d.dropPoint, parseFloat)
    else None
  }

  /** The markers drawn for the deliveries, in delivery order. */
  function MarkerPositions(ds: seq<Delivery>, parseFloat: FloatParser): seq<Pair> {
    if |ds| == 0 then [] else MarkerPosition(ds[0], parseFloat).ToSeq() + MarkerPositions(ds[1..], parseFloat)
  }

  /** The delivery part of the bounds list. */
  function DeliveriesBoundsPoints(ds: seq<Delivery>, parseFloat: FloatParser): seq<Pair> {
    if |ds| == 0 then [] else DeliveryBoundsPoints(ds[0], parseFloat) + DeliveriesBoundsPoints(ds[1..], parseFloat)
  }

  /** The two places that resolve a delivery's position agree: the bounds
      list holds exactly the drawn markers' positions, in the same order. */
  lemma {:induction false} DeliveryBoundsMatchMarkers(ds: seq<Delivery>, parseFloat: FloatParser)
    ensures DeliveriesBoundsPoints(ds, parseFloat) == MarkerPositions(ds, parseFloat)
    decreases |ds|
  {
    if |ds| > 0 {
      DeliveryBoundsMatchMarkers(ds[1..], parseFloat);
      assert DeliveryBoundsPoints(ds[0], parseFloat) == MarkerPosition(ds[0], parseFloat).ToSeq();
    }
  }

  /** The via-point part of the bounds list: each via point that is a
      two-element array. */
  function ViaBoundsPoints(via: seq<Option<seq<real>>>): seq<Pair> {
    if |via| == 0 then [] else ArrayPair(via[0]).ToSeq() + ViaBoundsPoints(via[1..])
  }

  /** The route part of the bounds list: each `[lng, lat]` pushed as `[lat, lng]`. */
  function RouteBoundsPoints(coordinates: seq<Pair>): seq<Pair> {
    if |coordinates| == 0 then []
    else [Pair(coordinates[0].second, coordinates[0].first)] + RouteBoundsPoints(coordinates[1..])
  }

  /** The route points the map is fitted to are the vertices of the drawn polyline. */
  lemma {:induction false} RouteBoundsMatchPolyline(coordinates: seq<Pair>)
    ensures RouteBoundsPoints(coordinates) == RouteCoordinates(Some(coordinates))
    decreases |coordinates|
  {
    if |coordinates| > 0 {
      RouteBoundsMatchPolyline(coordinates[1..]);
    }
  }

  /** The points `MapController` fits the map to, in push order: start, end,
      valid via points, resolvable deliveries, route vertices. */
  function BoundsList(startCoords: Option<seq<real>>, endCoords: Option<seq<real>>,
                      viaPoints: seq<Option<seq<real>>>, deliveries: seq<Delivery>,
                      routeGeometry: Option<seq<Pair>>, parseFloat: FloatParser): seq<Pair>
  {
    ArrayPair(startCoords).ToSeq()
    + ArrayPair(endCoords).ToSeq()
    + ViaBoundsPoints(viaPoints)
    + DeliveriesBoundsPoints(deliveries, parseFloat)
    + (if routeGeometry.Some? then RouteBoundsPoints(routeGeometry.value) else [])
  }

  /** The bounds list is laid out as start, end, via points, then the
      positions of the drawn delivery markers, then the drawn route polyline;
      it begins with the start when the start is a pair and ends with the
      polyline. */
  lemma BoundsLayout(startCoords: Option<seq<real>>, endCoords: Option<seq<real>>,
                     viaPoints: seq<Option<seq<real>>>, deliveries: seq<Delivery>,
                     routeGeometry: Option<seq<Pair>>, parseFloat: FloatParser)
    ensures var bounds := BoundsList(startCoords, endCoords, viaPoints, deliveries, routeGeometry, parseFloat);
      && bounds == ArrayPair(startCoords).ToSeq() + ArrayPair(endCoords).ToSeq()
                   + ViaBoundsPoints(viaPoints) + MarkerPositions(deliveries, parseFloat)
                   + RouteCoordinates(routeGeometry)
      && (ArrayPair(startCoords).Some? ==> bounds[0] == ArrayPair(startCoords).value)
      && |RouteCoordinates(routeGeometry)| <= |bounds|
      && bounds[|bounds| - |RouteCoordinates(routeGeometry)|..] == RouteCoordinates(routeGeometry)
  {
    DeliveryBoundsMatchMarkers(deliveries, parseFloat);
    if routeGeometry.Some? {
      RouteBoundsMatchPolyline(routeGeometry.value);
    }
  }

  /** `getInitialCenter`: the end when it is a pair, else the start when it
      is a pair, else the default; always a two-element position. */
  function InitialCenter(endCoords: Option<seq<real>>, startCoords: Option<seq<real>>): (center: seq<real>)
    ensures |center| == 2
    ensures ArrayPair(endCoords).Some? ==> center == endCoords.value
    ensures ArrayPair(endCoords).None? && ArrayPair(startCoords).Some? ==> center == startCoords.value
    ensures ArrayPair(endCoords).None? && ArrayPair(startCoords).None? ==> center == DefaultCenter
  {
    if endCoords.Some? && |endCoords.value| == 2 then endCoords.value
    else if startCoords.Some? && |startCoords.value| == 2 then startCoords.value
    else DefaultCenter
  }
}
