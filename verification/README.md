# WayGo route shaping, modelled in Dafny

WayGo lets an operator enter a start, an end and optional via points, asks
OpenRouteService for a driving route, draws a buffer polygon around the route
and marks the delivery drop points on a Leaflet map. This project models the
sequence-shaping logic around that I/O:

- **Route buffer polygon** (`createRouteBuffer` in components/MapView.js):
  the under-two-vertices guard, the stride simplification (every k-th vertex,
  k = max(1, floor(n/100)), final vertex forced in), the per-vertex choice of
  base bearing and its two perpendiculars, and the ring assembly (first-side
  offsets, then second-side offsets reversed). `bearing` and
  `getPointAtDistance` are uninterpreted function parameters over `real`.
- **Map helpers** (components/MapView.js): the `[lng, lat]` to `[lat, lng]`
  swap of the route geometry, drop-point resolution (stored coordinates, else
  the text read as `"lat,lon"`) at both places it is written, the ordered list
  of points the map is fitted to, and the initial centre.
- **Route request** (app/api/route/generate/route.js): API-key check, start
  and end presence and format checks, the longitude-first waypoint list
  (start, kept via points in order, end), silent dropping of malformed via
  points, and shaping of the routing service's reply. The service is a
  function parameter.
- **Inputs panel** (components/InputsPanel.js): add, remove-at-index and
  replace-at-index on the via-point texts, and the buffer-width field's
  `parseInt(...) || 1000`.

`parseFloat` and `parseInt` are parameters of type `string -> Option<real>`
and `string -> Option<int>`; `None` stands for NaN. `String.prototype.split`
(one-character separator) and `String.prototype.trim` (the ECMAScript
WhiteSpace and LineTerminator code points) are modelled exactly in `Text`.
JavaScript numbers are modelled as `real`, so no rounding is modelled.

Files: `wrappers.dfy` (Option, Result), `text.dfy` (split, join, trim),
`coords.dfy` (coordinate pairs, swap, `"lat,lon"` parsing),
`route_buffer.dfy`, `map_view.dfy`, `route_api.dfy`, `inputs_panel.dfy`.

Notes on the model against the code:

- Line 56 of MapView.js compares the last kept vertex with the final vertex
  by reference. Every vertex is a fresh array built by the `map` at lines
  260-261, so the model compares indices (`SimplifiedIndices`).
- The stride is 1 for every route below 200 vertices, so such a route keeps
  all its vertices (a 199-vertex route keeps all 199); from 200 vertices on it
  keeps between 100 and 199 of them, never 200 or more
  (`SimplifiedIndicesCount`).
- `perpBearing1` (base + pi/2) feeds the array named `leftSide`. With bearings
  measured clockwise from north this is the right-hand side of travel; the
  model keeps the code's names and states the layout by sign.
- An interior vertex's base bearing is the plain arithmetic mean of two
  angles in (-pi, pi]. For a route heading roughly south (incoming bearing
  just under pi, outgoing just over -pi) the mean is near 0, so the two
  perpendiculars swap sides at that vertex. The model keeps this behaviour,
  as the code has it; `MeanSegmentBearing` is the reference definition the
  code is proved to follow.
- `ChangeViaPoint` requires an index inside the list. Its only caller passes
  the index of a rendered entry.

Members without a contract of their own that the rows below rely on:
`Text.IsSpace`, `Text.Count`, `Text.Join`, `Coords.Swap`, `RouteBuffer.MeanSegmentBearing`,
`RouteBuffer.OffsetPoint`, `MapView.DeliveryBoundsPoints`,
`MapView.MarkerPositions`, `MapView.DeliveriesBoundsPoints`,
`MapView.ViaBoundsPoints`, `MapView.RouteBoundsPoints`, `MapView.BoundsList`,
`RouteApi.Truthy`, `RouteApi.RouteError.Status`, `RouteApi.RouteError.Message`,
`RouteApi.ViaWaypoint`.

## Model

| member | source | states |
|---|---|---|
| Text.Split | app/api/route/generate/route.js:21-22 | `split(',')` gives one more piece than there are commas, and no piece contains a comma |
| Text.JoinSplit | app/api/route/generate/route.js:21-22 | joining the pieces of a split with the separator gives back the original text |
| Text.SplitJoin | app/api/route/generate/route.js:21-22 | splitting a join of separator-free pieces gives back those pieces, so split and join are inverse |
| Text.LeadingSpace | app/api/route/generate/route.js:35 | the count covers a run of white space at the front, and the character after it (if any) is not white space, so the run is maximal |
| Text.TrailingSpace | app/api/route/generate/route.js:35 | the count covers a run of white space at the back, and the character before it (if any) is not white space, so the run is maximal |
| Text.Trim | app/api/route/generate/route.js:35 | the trimmed text is the piece of the input left after the maximal leading run of white space, everything after the piece is white space, and the piece neither starts nor ends with white space |
| Text.NotBlankWithSeparator | app/api/route/generate/route.js:35-37 | text holding a non-space character such as a comma never trims to the falsy empty string |
| Text.TrimEmptyIffAllSpace | app/api/route/generate/route.js:35 | `point.trim()` is falsy exactly when the text is all white space |
| Coords.SwapAll | components/MapView.js:260-261 | every pair has its two numbers exchanged, with length and order kept |
| Coords.SwapAllInvolution | components/MapView.js:260-261 | swapping twice gives back the original coordinates |
| Coords.ParseCoordPair | app/api/route/generate/route.js:21-27 | a `"lat,lon"` text is only accepted when it contains exactly one comma |
| Coords.ParseCoordPairText | app/api/route/generate/route.js:21-27 | for text `a,b` with no other comma, the pair is accepted exactly when trimmed `a` and trimmed `b` both parse, and then holds them in that order |
| Coords.ParseItemPair | app/api/route/generate/route.js:43-44 | a two-item array is accepted exactly when neither item parses to NaN |
| Coords.ArrayPair | components/MapView.js:158-165 | an array counts as a position exactly when it is present and has length 2, and then keeps its two numbers in order |
| RouteBuffer.Stride | components/MapView.js:52 | the stride is at least 1, is 1 exactly below 200 vertices, and from 100 vertices on is floor(n/100) |
| RouteBuffer.KeptByStride | components/MapView.js:53 | the filter keeps exactly the indices below n that are multiples of the stride, in increasing order |
| RouteBuffer.KeptByStrideClosedForm | components/MapView.js:52-53 | the j-th kept index is j times the stride, and ceil(n/k) indices are kept |
| RouteBuffer.SimplifiedIndices | components/MapView.js:53-58 | the kept indices are in range and the last one is always the final vertex |
| RouteBuffer.SimplifiedIndicesOrder | components/MapView.js:53-58 | the kept indices start at 0 and strictly increase, so the final vertex is never kept twice |
| RouteBuffer.SimplifiedIndicesMembers | components/MapView.js:52-58 | an index is kept exactly when it is a multiple of the stride or the final index |
| RouteBuffer.SimplifiedIndicesCount | components/MapView.js:52-58 | between 2 and n indices are kept, never 200 or more, all of them below 200 vertices, and at least 100 from 200 vertices on |
| RouteBuffer.Simplify | components/MapView.js:52-58 | the simplified route is the route read at the kept indices, in order; for two or more vertices it starts and ends where the route does, has 2 to n vertices (so the `i+1`, `i-1` reads stay in range) and fewer than 200, and equals the route below 200 vertices |
| RouteBuffer.PerpendicularBearings | components/MapView.js:67-86 | the three-branch choice equals base + pi/2 and base - pi/2 where base is the mean of the arriving and leaving segment bearings (the first or last segment at the ends), so the two differ by pi |
| RouteBuffer.OffsetSides | components/MapView.js:60-93 | both sides get one offset point per simplified vertex, in vertex order, at the vertex's two perpendicular bearings |
| RouteBuffer.Reverse | components/MapView.js:96 | the reversed list has the same length and holds element `len-1-i` at position i |
| RouteBuffer.RingLayout | components/MapView.js:95-98 | the ring has 2m points: first-side offsets of vertices 0..m-1, then second-side offsets of vertices m-1..0 |
| RouteBuffer.CreateRouteBuffer | components/MapView.js:19-99 | no polygon exactly when the route has fewer than 2 vertices; otherwise 2m points (at least 4, fewer than 400, and 2n below 200 vertices) with point j the first-side offset of simplified vertex j and point m+j the second-side offset of vertex m-1-j |
| MapView.RouteCoordinates | components/MapView.js:259-261 | the drawn polyline has one `[lat, lng]` point per `[lng, lat]` geometry vertex, in order, and is empty without geometry |
| MapView.MarkerPosition | components/MapView.js:363-377 | stored coordinates win; otherwise the marker sits where the drop-point text reads as `"lat,lon"` |
| MapView.DeliveryBoundsMatchMarkers | components/MapView.js:177-189 | the delivery part of the bounds list is exactly the positions of the drawn delivery markers, in order |
| MapView.RouteBoundsMatchPolyline | components/MapView.js:192-196 | the route part of the bounds list is exactly the drawn polyline |
| MapView.BoundsLayout | components/MapView.js:155-196 | the bounds list is start, end, valid via points, delivery marker positions, then the polyline, beginning with the start when it is a pair |
| MapView.InitialCenter | components/MapView.js:267-271 | the centre is always two numbers: the end when it is a pair, else the start when it is a pair, else 51.505, -0.09 |
| RouteApi.MalformedViaPointDropped | app/api/route/generate/route.js:33-49 | blank text, text without exactly one comma or with an unparseable piece, arrays not of length 2 or with a NaN item, and other values all contribute no waypoint |
| RouteApi.ViaTextKept | app/api/route/generate/route.js:35-40 | text `lat,lon` whose pieces parse becomes the waypoint `[lon, lat]` |
| RouteApi.ViaArrayKept | app/api/route/generate/route.js:41-46 | a two-item array whose items parse becomes the waypoint `[item1, item0]` |
| RouteApi.ViaWaypoints | app/api/route/generate/route.js:33-49 | at most one waypoint per via point |
| RouteApi.ViaWaypointsAppend | app/api/route/generate/route.js:33-49 | the waypoints of concatenated via lists are the concatenated waypoints, so relative order is kept |
| RouteApi.ViaPointInPlace | app/api/route/generate/route.js:33-49 | each via point contributes nothing or exactly its own waypoint at its own place, leaving its neighbours' waypoints unchanged |
| RouteApi.BuildWaypoints | app/api/route/generate/route.js:10-51 | no key gives the 500 "OpenRouteService API key not configured" error whatever else is sent; then a missing start or end gives the 400 "Start and end locations are required" error; then the request is accepted exactly when both parse, and otherwise fails with the 400 "Invalid coordinate format. Use latitude,longitude" error; the list is `[startLon, startLat]`, the kept via waypoints, `[endLon, endLat]`, of length 2 + kept via points |
| RouteApi.ShapeReply | app/api/route/generate/route.js:71-93 | no features exactly when the result is the 404 "No route found" error, the only error it gives; otherwise the first feature's geometry with the first segment's distance and duration, or 0 and 0 without segments |
| RouteApi.GenerateRoute | app/api/route/generate/route.js:10-93 | a missing key always gives status 500 and the message "OpenRouteService API key not configured"; a rejected request returns its check error; for an accepted request the answer is 404 "No route found" exactly when the service's reply has no features, and otherwise carries the first feature's geometry with the first segment's distance and duration (0 and 0 without a segment); a 404 only happens that way |
| RouteApi.RejectedRequestIgnoresRouter | app/api/route/generate/route.js:12-27 | a request rejected by the checks gets the same answer whatever the routing service would say |
| InputsPanel.AddViaPoint | components/InputsPanel.js:18 | the list grows by one empty entry at the end and the old entries are unchanged |
| InputsPanel.RemoveViaPoint | components/InputsPanel.js:19 | at a valid index exactly that entry goes and the rest keep their order; at any other index the list is unchanged |
| InputsPanel.ChangeViaPoint | components/InputsPanel.js:20-24 | only the entry at the index changes, to the new value, and the length is kept |
| InputsPanel.ChangeViaPointIdempotent | components/InputsPanel.js:20-24 | applying the same change twice equals applying it once |
| InputsPanel.RemoveAfterChange | components/InputsPanel.js:19-24 | removing an entry after editing it equals removing it unedited |
| InputsPanel.AddThenRemoveRestores | components/InputsPanel.js:18-19 | adding an entry and removing it at the old length restores the list |
| InputsPanel.BufferWidth | components/InputsPanel.js:59 | the width is the parsed integer unless it is NaN or 0, then 1000; it is never 0 and negatives pass through |

## Left out

- The bodies of `bearing` and `getPointAtDistance` (components/MapView.js:26-49): spherical trigonometry on floating point; they are function parameters.
- Floating-point rounding: JavaScript numbers are `real`, and `Math.PI` is the decimal 3.141592653589793.
- The lenient prefix parsing of `parseFloat` and `parseInt`, and `Infinity` results: both are abstract parameters returning a number or NaN.
- React and Leaflet: component lifecycle, the `useEffect` guard that skips the buffer update for an empty route or a falsy buffer, re-computation on zoom and move events, marker icons and popups (components/MapView.js:7-18, 100-146, 215-398).
- `map.fitBounds` and its fallback to the end coordinates (components/MapView.js:198-209): calls into Leaflet.
- The HTTP side of the route handler: `request.json()`, the axios call, `NextResponse`, logging, and the catch block that forwards the service's error status or answers 500 (app/api/route/generate/route.js:6-8, 53-69, 95-115). A start or end that is truthy but not a string throws and lands in that catch block; it is not modelled.
- A `viaPoints` value that is not an array but has a positive `length` (a non-empty string, say) passes the guard at app/api/route/generate/route.js:33, `viaPoints.forEach` at line 34 throws, and the catch block answers 500; a non-array without a positive `length` is skipped. The model's `viaPoints` is always a list.
- `drop_point_coords` and the map's start, end and via values that are arrays of other lengths: a stored delivery position is a pair or absent; the map's inputs are arrays of any length, checked for length 2 where the code checks.
- Route geometry vertices with more than two numbers (elevation): the code reads only the first two, and the model holds only those.
- ChangeViaPoint: does not model writing past the end of the list (JavaScript would extend the array with holes), because the only caller passes the index of a rendered entry.
- The geocoding and deliveries API routes, AlertComponent.js, LeafletCSS.js and the page component: thin wrappers over external services, a database query, and styling.
- Haversine distance, distance to the route, and the classification and sorting of deliveries: that code is not part of this model.
