/** Coordinates as the JavaScript code handles them: two-element number
    arrays whose meaning (latitude first or longitude first) depends on where
    they come from, and the `"lat,lon"` text form typed by the operator. */
module Coords {
  import opened Wrappers
  import Text

  /** A two-element number array `[a, b]`. The routing service writes
      `[longitude, latitude]`; the map widgets use `[latitude, longitude]`. */
  datatype Pair = Pair(first: real, second: real)

  /** `parseFloat`, abstracted: None stands for NaN. */
  type FloatParser = string -> Option<real>

  /** `[p[1], p[0]]`. */
  function Swap(p: Pair): Pair {
    Pair(p.second, p.first)
  }

  /** `coords.map(c => [c[1], c[0]])`: swaps every pair, keeping length and order. */
  function SwapAll(ps: seq<Pair>): (qs: seq<Pair>)
    ensures |qs| == |ps|
    ensures forall i :: 0 <= i < |ps| ==> qs[i].first == ps[i].second && qs[i].second == ps[i].first
  {
    seq(|ps|, i requires 0 <= i < |ps| => Swap(ps[i]))
  }

  /** Converting `[lng, lat]` to `[lat, lng]` and back gives the original geometry. */
  lemma SwapAllInvolution(ps: seq<Pair>)
    ensures SwapAll(SwapAll(ps)) == ps
  {
  }

  /** `s.split(',').map(c => parseFloat(c.trim()))` followed by the check
      `length === 2 && !some(isNaN)`: a pair when the text has exactly two
      comma-separated pieces that both parse, in the order written. */
  function ParseCoordPair(s: string, parseFloat: FloatParser): (r: Option<Pair>)
    ensures r.Some? ==> Text.Count(s, ',') == 1
  {
    var parts := Text.Split(s, ',');
    if |parts| != 2 then None
    else
      var a := parseFloat(Text.Trim(parts[0]));
      var b := parseFloat(Text.Trim(parts[1]));
      if a.Some? && b.Some? then Some(Pair(a.value, b.value)) else None
  }

  /** The whole acceptance rule for typed coordinates, stated on the text
      itself: text with exactly one comma, `a,b`, is accepted exactly when the
      trimmed `a` and the trimmed `b` both parse, and then yields them in that
      order; text with no comma or with two or more is always rejected. */
  lemma {:induction false} ParseCoordPairText(a: string, b: string, parseFloat: FloatParser)
    requires ',' !in a && ',' !in b
    ensures ParseCoordPair(a + "," + b, parseFloat).Some?
            <==> parseFloat(Text.Trim(a)).Some? && parseFloat(Text.Trim(b)).Some?
    ensures ParseCoordPair(a + "," + b, parseFloat).Some? ==>
              ParseCoordPair(a + "," + b, parseFloat).value
              == Pair(parseFloat(Text.Trim(a)).value, parseFloat(Text.Trim(b)).value)
  {
    Text.SplitJoin([a, b], ',');
    assert Text.Join([a, b], ',') == a + "," + b;
  }

  /** `point.map(c => parseFloat(c))` followed by the NaN check, for a
      coordinate given as a two-element array. JavaScript's parseFloat
      converts its argument to a string first, so the items are modelled by
      their text. */
  function ParseItemPair(items: seq<string>, parseFloat: FloatParser): (r: Option<Pair>)
    requires |items| == 2
    ensures r.Some? <==> parseFloat(items[0]).Some? && parseFloat(items[1]).Some?
  {
    var a := parseFloat(items[0]);
    var b := parseFloat(items[1]);
    if a.Some? && b.Some? then Some(Pair(a.value, b.value)) else None
  }

  /** A JavaScript number array checked with `length === 2`, as a pair. */
  function ArrayPair(a: Option<seq<real>>): (r: Option<Pair>)
    ensures r.Some? <==> a.Some? && |a.value| == 2
    ensures r.Some? ==> r.value.first == a.value[0] && r.value.second == a.value[1]
  {
    if a.Some? && |a.value| == 2 then Some(Pair(a.value[0], a.value[1])) else None
  }
}
