/** The distance calculator: a one-slot state machine remembering the last
    point seen, over all units together, and the planar distance between
    two points. The square root is a parameter: `sqrt` stands for
    `math.Sqrt`, and the lemmas that need it assume only that it is zero at
    zero and non-negative on non-negative numbers. */
module DistanceCalculator {
  import opened Types

  /** `types.OBUData`: a unit's id and coordinates. */
  datatype OBUData = OBUData(obuID: int, lat: real, long: real)

  datatype Point = Point(lat: real, long: real)

  /** `CalculatorService`: `prevPoint` is nil until the first call and the
      two-element slice `[lat, long]` afterwards. */
  datatype Calculator = Calculator(prevPoint: Option<Point>)

  /** `NewCalculatorService`: nothing seen yet. */
  const NewCalculator: Calculator := Calculator(None)

  /** The properties of `math.Sqrt` the lemmas rely on. */
  ghost predicate RootLike(sqrt: real -> real) {
    && sqrt(0.0) == 0.0
    && forall x :: 0.0 <= x ==> 0.0 <= sqrt(x)
  }

  /** `math.Pow(a, 2)` on reals. */
  function Square(a: real): real {
    a * a
  }

  /** `calculateDistance(x1, y1, x2, y2)`. */
  function PlanarDistance(sqrt: real -> real, x1: real, y1: real, x2: real, y2: real): real {
    sqrt(Square(x2 - x1) + Square(y2 - y1))
  }

  /** The planar distance is non-negative, symmetric in its two points, and
      zero between a point and itself. */
  lemma PlanarDistanceMetric(sqrt: real -> real, x1: real, y1: real, x2: real, y2: real)
    requires RootLike(sqrt)
    ensures 0.0 <= PlanarDistance(sqrt, x1, y1, x2, y2)
    ensures PlanarDistance(sqrt, x1, y1, x2, y2) == PlanarDistance(sqrt, x2, y2, x1, y1)
    ensures PlanarDistance(sqrt, x1, y1, x1, y1) == 0.0
  {
    assert Square(x2 - x1) == Square(x1 - x2);
    assert Square(y2 - y1) == Square(y1 - y2);
    assert 0.0 <= Square(x2 - x1) + Square(y2 - y1);
  }

  /** One call's result: the next state, the distance and the error. */
  datatype Step = Step(next: Calculator, distance: real, err: Option<Error>)

  /** `CalculateDistance`: 0 on the first call, otherwise the distance from
      the remembered point; the new point is remembered whatever the unit,
      and no error is ever returned. */
  function CalculateDistance(sqrt: real -> real, s: Calculator, data: OBUData): (r: Step)
    ensures r.next == Calculator(Some(Point(data.lat, data.long)))
    ensures r.err == None
    ensures s.prevPoint.None? ==> r.distance == 0.0
    ensures s.prevPoint.Some? ==>
      r.distance == PlanarDistance(sqrt, s.prevPoint.value.lat, s.prevPoint.value.long, data.lat, data.long)
  {
    var distance := if s.prevPoint.Some? then
      PlanarDistance(sqrt, s.prevPoint.value.lat, s.prevPoint.value.long, data.lat, data.long)
    else 0.0;
    Step(Calculator(Some(Point(data.lat, data.long))), distance, None)
  }

  /** The distances returned by successive calls on one service. */
  function Run(sqrt: real -> real, s: Calculator, feed: seq<OBUData>): seq<real>
    decreases |feed|
  {
    if feed == [] then []
    else
      var step := CalculateDistance(sqrt, s, feed[0]);
      [step.distance] + Run(sqrt, step.next, feed[1..])
  }

  /** Reference definition: the i-th answer measures from the (i-1)-th ping
      of the whole feed, whatever units sent them; the first measures from
      the remembered point, or is 0 on a fresh service. */
  function Expected(sqrt: real -> real, s: Calculator, feed: seq<OBUData>, i: nat): real
    requires i < |feed|
  {
    if i == 0 then
      (if s.prevPoint.Some? then PlanarDistance(sqrt, s.prevPoint.value.lat, s.prevPoint.value.long, feed[0].lat, feed[0].long) else 0.0)
    else PlanarDistance(sqrt, feed[i - 1].lat, feed[i - 1].long, feed[i].lat, feed[i].long)
  }

  /** Successive calls answer exactly the reference distances: one answer
      per ping, consecutive pings measured against each other. */
  lemma {:induction false} RunMatchesExpected(sqrt: real -> real, s: Calculator, feed: seq<OBUData>)
    ensures |Run(sqrt, s, feed)| == |feed|
    ensures forall i | 0 <= i < |feed| :: Run(sqrt, s, feed)[i] == Expected(sqrt, s, feed, i)
    decreases |feed|
  {
    if feed != [] {
      var step := CalculateDistance(sqrt, s, feed[0]);
      RunMatchesExpected(sqrt, step.next, feed[1..]);
      forall i | 0 <= i < |feed|
        ensures Run(sqrt, s, feed)[i] == Expected(sqrt, s, feed, i)
      {
        if i > 0 {
          assert Run(sqrt, s, feed)[i] == Run(sqrt, step.next, feed[1..])[i - 1];
          assert Expected(sqrt, step.next, feed[1..], i - 1) == Expected(sqrt, s, feed, i);
        }
      }
    }
  }

  /** A fresh service answers 0 first, and the unit ids play no part: two
      feeds with the same coordinates get the same answers. */
  lemma {:induction false} RunIgnoresUnits(sqrt: real -> real, s: Calculator, feed: seq<OBUData>, other: seq<OBUData>)
    requires |feed| == |other|
    requires forall i | 0 <= i < |feed| :: feed[i].lat == other[i].lat && feed[i].long == other[i].long
    ensures Run(sqrt, s, feed) == Run(sqrt, s, other)
    ensures feed != [] && s == NewCalculator ==> Run(sqrt, s, feed)[0] == 0.0
    decreases |feed|
  {
    if feed != [] {
      var step := CalculateDistance(sqrt, s, feed[0]);
      assert CalculateDistance(sqrt, s, other[0]) == step;
      RunIgnoresUnits(sqrt, step.next, feed[1..], other[1..]);
    }
  }

  /** With a root that behaves, every answer of any run is non-negative. */
  lemma RunNonNegative(sqrt: real -> real, s: Calculator, feed: seq<OBUData>)
    requires RootLike(sqrt)
    ensures forall i | 0 <= i < |Run(sqrt, s, feed)| :: 0.0 <= Run(sqrt, s, feed)[i]
  {
    RunMatchesExpected(sqrt, s, feed);
    forall i | 0 <= i < |feed|
      ensures 0.0 <= Expected(sqrt, s, feed, i)
    {
      if i > 0 {
        PlanarDistanceMetric(sqrt, feed[i - 1].lat, feed[i - 1].long, feed[i].lat, feed[i].long);
      } else if s.prevPoint.Some? {
        PlanarDistanceMetric(sqrt, s.prevPoint.value.lat, s.prevPoint.value.long, feed[0].lat, feed[0].long);
      }
    }
  }
}
