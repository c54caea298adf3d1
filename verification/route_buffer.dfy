/** `createRouteBuffer` from components/MapView.js: the polygon drawn around
    the route. The route is thinned to every k-th vertex (final vertex always
    kept), each kept vertex gets a base bearing, and the vertex is offset by
    the buffer distance at base + pi/2 and at base - pi/2; the ring is the
    first offsets in order followed by the second offsets in reverse.

    The spherical formulas (`bearing`, `getPointAtDistance`) are parameters:
    nothing below depends on what they compute. */
module RouteBuffer {
  import opened Wrappers
  import opened Coords

  /** `Math.PI`. */
  const Pi: real := 3.141592653589793
  const HalfPi: real := Pi / 2.0

  /** `bearing(lat1, lon1, lat2, lon2)` on `[lat, lon]` pairs, in radians. */
  type BearingFn = (Pair, Pair) -> real
  /** `getPointAtDistance(lat, lon, distance, bearingRad)`: the destination point. */
  type DestinationFn = (Pair, real, real) -> Pair

  /** `Math.max(1, Math.floor(n / 100))`. */
  function Stride(n: nat): (k: nat)
    ensures k >= 1
    ensures n < 200 <==> k == 1
    ensures n >= 100 ==> 100 * k <= n < 100 * k + 100
  {
    if n / 100 > 1 then n / 100 else 1
  }

  /** `filter((_, index) => index % k === 0)` on the indices `0 .. n-1`: the
      indices the stride keeps, in increasing order. */
  function KeptByStride(n: nat, k: nat): (idx: seq<nat>)
    requires k >= 1
    ensures forall j :: 0 <= j < |idx| ==> idx[j] < n && idx[j] % k == 0
    ensures forall i :: 0 <= i < n && i % k == 0 ==> i in idx
    ensures forall a, b :: 0 <= a < b < |idx| ==> idx[a] < idx[b]
    decreases n
  {
    if n == 0 then []
    else KeptByStride(n - 1, k) + (if (n - 1) % k == 0 then [n - 1] else [])
  }

  lemma MulLeftCancel(a: int, b: int, k: int)
    requires k >= 1 && a * k < b * k
    ensures a < b
  {
  }

  lemma MultipleOfSelf(c: int, k: int)
    requires k >= 1
    ensures (c * k) % k == 0
  {
    var q := (c * k) / k;
    var r := (c * k) % k;
    assert (c - q) * k == r;
    MulLeftCancel(c - q, 1, k);
    MulLeftCancel(-1, c - q, k);
  }

  lemma DivExact(m: int, k: int)
    requires k >= 1 && m % k == 0
    ensures (m / k) * k == m
  {
  }

  /** The multiple of k strictly above (c - 1) * k and at most c * k is c * k. */
  lemma SandwichedMultiple(c: int, q: int, k: int)
    requires k >= 1 && (c - 1) * k < q * k <= c * k
    ensures q == c
  {
  }

  /** When m is a multiple of k and c multiples lie below it, m == c * k. */
  lemma MultipleStep(c: int, k: int, m: int)
    requires k >= 1 && c >= 0 && m >= 0 && m % k == 0
    requires m == 0 ==> c == 0
    requires m > 0 ==> (c - 1) * k < m <= c * k
    ensures m == c * k
    ensures c * k < m + 1 <= (c + 1) * k
  {
    var q := m / k;
    DivExact(m, k);
    if m > 0 {
      SandwichedMultiple(c, q, k);
    }
  }

  /** When m is not a multiple of k, the count of multiples below m + 1 is the one below m. */
  lemma NonMultipleStep(c: int, k: int, m: int)
    requires k >= 1 && m % k != 0
    requires (c - 1) * k < m <= c * k
    ensures (c - 1) * k < m + 1 <= c * k
  {
    if m == c * k {
      MultipleOfSelf(c, k);
    }
  }

  /** The j-th index the stride keeps is j * k, and exactly ceil(n / k) are kept. */
  lemma {:induction false} KeptByStrideClosedForm(n: nat, k: nat)
    requires k >= 1
    ensures var kept := KeptByStride(n, k);
      && (forall j :: 0 <= j < |kept| ==> kept[j] == j * k)
      && (n == 0 <==> |kept| == 0)
      && (n > 0 ==> (|kept| - 1) * k < n <= |kept| * k)
    decreases n
  {
    if n > 0 {
      var m := n - 1;
      var prev := KeptByStride(m, k);
      var c := |prev|;
      var kept := KeptByStride(n, k);
      KeptByStrideClosedForm(m, k);
      if m % k == 0 {
        assert kept == prev + [m];
        MultipleStep(c, k, m);
      } else {
        assert kept == prev;
        NonMultipleStep(c, k, m);
      }
    }
  }

  /** The vertex indices kept by the simplification: the stride's indices,
      then index n - 1 when the stride skipped it. MapView.js:56 compares the
      last kept vertex with the final vertex by reference; every vertex is a
      fresh array (MapView.js:260-261), so that comparison is this index test. */
  function SimplifiedIndices(n: nat): (idx: seq<nat>)
    requires n >= 1
    ensures |idx| >= 1
    ensures forall j :: 0 <= j < |idx| ==> idx[j] < n
    ensures idx[|idx| - 1] == n - 1
  {
    var kept := KeptByStride(n, Stride(n));
    assert 0 in kept;
    if kept[|kept| - 1] != n - 1 then kept + [n - 1] else kept
  }

  lemma HalfBound(c: int, k: int, n: int)
    requires k >= 2 && c >= 1 && (c - 1) * k < n
    ensures 2 * (c - 1) < n
  {
  }

  lemma StrideCountBound(c: int, k: int, n: int)
    requires k >= 2 && c >= 1 && (c - 1) * k < n < 100 * k + 100
    ensures c <= 150
  {
  }

  lemma StrideCountLowerBound(c: int, k: int, n: int)
    requires k >= 1 && 100 * k <= n <= c * k
    ensures c >= 100
  {
    if c < 100 {
      MulLeftCancel(100, c, k);
    }
  }

  /** The simplification keeps index 0 first and then strictly increasing
      indices, so the final vertex appears exactly once, at the end. */
  lemma SimplifiedIndicesOrder(n: nat)
    requires n >= 2
    ensures SimplifiedIndices(n)[0] == 0
    ensures forall a, b :: 0 <= a < b < |SimplifiedIndices(n)| ==>
              SimplifiedIndices(n)[a] < SimplifiedIndices(n)[b]
  {
    var k := Stride(n);
    var kept := KeptByStride(n, k);
    KeptByStrideClosedForm(n, k);
    assert kept[0] == 0;
    var idx := SimplifiedIndices(n);
    if kept[|kept| - 1] != n - 1 {
      assert idx == kept + [n - 1];
      forall a, b | 0 <= a < b < |idx| ensures idx[a] < idx[b] {
        if b == |idx| - 1 {
          assert idx[a] == kept[a];
        }
      }
    } else {
      assert idx == kept;
    }
  }

  /** The simplification keeps exactly the indices that are multiples of the
      stride, together with the final index. */
  lemma SimplifiedIndicesMembers(n: nat, i: nat)
    requires n >= 2
    ensures i in SimplifiedIndices(n) <==> (i < n && i % Stride(n) == 0) || i == n - 1
  {
  }

  /** How many indices the simplification keeps: between 2 and n, never 200
      or more, all n of them below 200 vertices, and at least 100 from 200
      vertices on. */
  lemma SimplifiedIndicesCount(n: nat)
    requires n >= 2
    ensures var idx := SimplifiedIndices(n);
      && 2 <= |idx| <= n
      && |idx| < 200
      && (n >= 200 ==> |idx| >= 100)
      && (n < 200 ==> |idx| == n && forall j :: 0 <= j < n ==> idx[j] == j)
  {
    var k := Stride(n);
    var kept := KeptByStride(n, k);
    var c := |kept|;
    KeptByStrideClosedForm(n, k);
    var idx := SimplifiedIndices(n);
    if k == 1 {
      assert c == n;
      assert kept[c - 1] == n - 1;
      assert idx == kept;
    } else {
      HalfBound(c, k, n);
      StrideCountBound(c, k, n);
      StrideCountLowerBound(c, k, n);
      assert c >= 2;
    }
  }

  /** The ordering and count facts about the kept indices, for any route
      length, as `Simplify` uses them. */
  lemma SimplifiedShape(n: nat)
    requires n >= 1
    ensures n >= 2 ==> SimplifiedIndices(n)[0] == 0
    ensures n >= 2 ==> 2 <= |SimplifiedIndices(n)| <= n && |SimplifiedIndices(n)| < 200
    ensures 2 <= n < 200 ==>
      |SimplifiedIndices(n)| == n && forall j :: 0 <= j < n ==> SimplifiedIndices(n)[j] == j
  {
    if n >= 2 {
      SimplifiedIndicesOrder(n);
      SimplifiedIndicesCount(n);
    }
  }

  /** The simplified route: the kept vertices in their original order. For
      a route of two or more vertices it starts and ends where the route
      does, has between 2 and n vertices (so the loop's `i + 1` and `i - 1`
      reads stay in range), never 200 or more, and is the route itself below
      200 vertices. */
  function Simplify(coords: seq<Pair>): (s: seq<Pair>)
    requires |coords| >= 1
    ensures |s| == |SimplifiedIndices(|coords|)|
    ensures forall j :: 0 <= j < |s| ==> s[j] == coords[SimplifiedIndices(|coords|)[j]]
    ensures |coords| >= 2 ==> s[0] == coords[0] && s[|s| - 1] == coords[|coords| - 1]
    ensures |coords| >= 2 ==> 2 <= |s| <= |coords| && |s| < 200
    ensures 2 <= |coords| < 200 ==> s == coords
  {
    var idx := SimplifiedIndices(|coords|);
    SimplifiedShape(|coords|);
    seq(|idx|, j requires 0 <= j < |idx| => coords[idx[j]])
  }

  /** `rightSide.reverse()`. */
  function Reverse<T>(s: seq<T>): (r: seq<T>)
    ensures |r| == |s|
    ensures forall i :: 0 <= i < |s| ==> r[i] == s[|s| - 1 - i]
  {
    if |s| == 0 then [] else Reverse(s[1..]) + [s[0]]
  }

  /** Reference definition of a vertex's base bearing: the mean of the
      bearing of the segment arriving at vertex i and of the segment leaving
      it, where at an end of the line the missing segment is stood in for by
      the one that is there. */
  function MeanSegmentBearing(pts: seq<Pair>, i: nat, bearing: BearingFn): real
    requires |pts| >= 2 && i < |pts|
  {
    var arriving := if i == 0 then 0 else i - 1;
    var leaving := if i == |pts| - 1 then i - 1 else i;
    (bearing(pts[arriving], pts[arriving + 1]) + bearing(pts[leaving], pts[leaving + 1])) / 2.0
  }

  /** `perpBearing1`, `perpBearing2` for vertex i, chosen as in the loop:
      first vertex, last vertex, interior vertex. */
  function PerpendicularBearings(pts: seq<Pair>, i: nat, bearing: BearingFn): (r: (real, real))
    requires |pts| >= 2 && i < |pts|
    ensures i == 0 ==> r.0 == bearing(pts[0], pts[1]) + HalfPi
    ensures i == |pts| - 1 ==> r.0 == bearing(pts[|pts| - 2], pts[|pts| - 1]) + HalfPi
    ensures r.0 == MeanSegmentBearing(pts, i, bearing) + HalfPi
    ensures r.1 == MeanSegmentBearing(pts, i, bearing) - HalfPi
    ensures r.0 - r.1 == Pi
  {
    if i == 0 then
      var segmentBearing := bearing(pts[i], pts[i + 1]);
      (segmentBearing + HalfPi, segmentBearing - HalfPi)
    else if i == |pts| - 1 then
      var segmentBearing := bearing(pts[i - 1], pts[i]);
      (segmentBearing + HalfPi, segmentBearing - HalfPi)
    else
      var bearing1 := bearing(pts[i - 1], pts[i]);
      var bearing2 := bearing(pts[i], pts[i + 1]);
      var avgBearing := (bearing1 + bearing2) / 2.0;
      (avgBearing + HalfPi, avgBearing - HalfPi)
  }

  /** The point `bufferDistance` from vertex i of `pts` on the side given by
      `sign` (+1 for `perpBearing1`, -1 for `perpBearing2`) of its base bearing. */
  function OffsetPoint(pts: seq<Pair>, i: nat, bufferDistance: real, sign: real,
                       bearing: BearingFn, pointAt: DestinationFn): Pair
    requires |pts| >= 2 && i < |pts|
  {
    pointAt(pts[i], bufferDistance, MeanSegmentBearing(pts, i, bearing) + sign * HalfPi)
  }

  /** The loop over the simplified vertices: for each vertex, its offset at
      `perpBearing1` goes to `leftSide` and its offset at `perpBearing2` to
      `rightSide`, both in vertex order. */
  method OffsetSides(pts: seq<Pair>, bufferDistance: real, bearing: BearingFn, pointAt: DestinationFn)
    returns (leftSide: seq<Pair>, rightSide: seq<Pair>)
    requires |pts| >= 2
    ensures |leftSide| == |pts| && |rightSide| == |pts|
    ensures forall j :: 0 <= j < |pts| ==>
      leftSide[j] == OffsetPoint(pts, j, bufferDistance, 1.0, bearing, pointAt)
    ensures forall j :: 0 <= j < |pts| ==>
      rightSide[j] == OffsetPoint(pts, j, bufferDistance, -1.0, bearing, pointAt)
  {
    leftSide := [];
    rightSide := [];
    var i := 0;
    while i < |pts|
      invariant 0 <= i <= |pts|
      invariant |leftSide| == i && |rightSide| == i
      invariant forall j :: 0 <= j < i ==>
        leftSide[j] == OffsetPoint(pts, j, bufferDistance, 1.0, bearing, pointAt)
      invariant forall j :: 0 <= j < i ==>
        rightSide[j] == OffsetPoint(pts, j, bufferDistance, -1.0, bearing, pointAt)
    {
      var perp := PerpendicularBearings(pts, i, bearing);
      var leftPoint := pointAt(pts[i], bufferDistance, perp.0);
      var rightPoint := pointAt(pts[i], bufferDistance, perp.1);
      leftSide := leftSide + [leftPoint];
      rightSide := rightSide + [rightPoint];
      i := i + 1;
    }
  }

  /** `[...leftSide, ...rightSide.reverse()]`: the first-side offsets in
      order, then the second-side offsets from the last vertex back to the first. */
  lemma RingLayout(left: seq<Pair>, right: seq<Pair>, s: seq<Pair>, bufferDistance: real,
                   bearing: BearingFn, pointAt: DestinationFn)
    requires |s| >= 2 && |left| == |s| && |right| == |s|
    requires forall j :: 0 <= j < |s| ==>
      left[j] == OffsetPoint(s, j, bufferDistance, 1.0, bearing, pointAt)
    requires forall j :: 0 <= j < |s| ==>
      right[j] == OffsetPoint(s, j, bufferDistance, -1.0, bearing, pointAt)
    ensures var ring := left + Reverse(right);
      && |ring| == 2 * |s|
      && (forall j :: 0 <= j < |s| ==>
            ring[j] == OffsetPoint(s, j, bufferDistance, 1.0, bearing, pointAt))
      && (forall j :: |s| <= j < 2 * |s| ==>
            ring[j] == OffsetPoint(s, 2 * |s| - 1 - j, bufferDistance, -1.0, bearing, pointAt))
  {
  }

  /** `createRouteBuffer(coords, bufferDistance)`. No polygon for fewer than
      two vertices; otherwise a ring of 2m points for the m simplified
      vertices: point j is vertex j offset at base + pi/2, and point m + j is
      vertex m-1-j offset at base - pi/2. */
  method CreateRouteBuffer(coords: seq<Pair>, bufferDistance: real,
                           bearing: BearingFn, pointAt: DestinationFn)
    returns (polygon: Option<seq<Pair>>)
    ensures |coords| < 2 <==> polygon.None?
    ensures polygon.Some? ==>
      var s := Simplify(coords);
      var m := |s|;
      && |polygon.value| == 2 * m
      && 4 <= |polygon.value| < 400
      && (|coords| < 200 ==> |polygon.value| == 2 * |coords|)
      && (forall j :: 0 <= j < m ==>
            polygon.value[j] == OffsetPoint(s, j, bufferDistance, 1.0, bearing, pointAt))
      && (forall j :: m <= j < 2 * m ==>
            polygon.value[j] == OffsetPoint(s, 2 * m - 1 - j, bufferDistance, -1.0, bearing, pointAt))
  {
    if |coords| < 2 {
      return None;
    }
    var simplifiedCoords := Simplify(coords);
    assert 2 <= |simplifiedCoords| < 200;
    assert |coords| < 200 ==> |simplifiedCoords| == |coords|;
    var leftSide, rightSide := OffsetSides(simplifiedCoords, bufferDistance, bearing, pointAt);
    RingLayout(leftSide, rightSide, simplifiedCoords, bufferDistance, bearing, pointAt);
    var ring := leftSide + Reverse(rightSide);
    assert |ring| == 2 * |simplifiedCoords|;
    polygon := Some(ring);
  }
}
