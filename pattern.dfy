/** The pieces of the leg pattern that M48 walks before each probe on a rectangular machine. */
module Pattern {
  import opened Types

  /** Degrees between two points of the star: two steps of 72 around a five-point star. */
  const StarStep: real := 2.0 * 72.0

  /** The distance between two values on the real line. */
  function Dist(u: real, v: real): real { if u < v then v - u else u - v }

  /** LIMIT(v, lo, hi): the value pulled into the closed interval [lo, hi]. */
  function Limit(v: real, lo: real, hi: real): (r: real)
    ensures lo <= hi ==> lo <= r <= hi
    ensures lo <= v <= hi ==> r == v
    ensures lo <= hi ==> forall w :: lo <= w <= hi ==> Dist(r, v) <= Dist(w, v)
  {
    if v < lo then lo else if v > hi then hi else v
  }

  /** The C conversion of a float to `int`, which drops the fraction towards zero. */
  function Trunc(v: real): (i: int)
    ensures 0.0 <= v ==> 0 <= i && i as real <= v < i as real + 1.0
    ensures v < 0.0 ==> i <= 0 && i as real - 1.0 < v <= i as real
  {
    if 0.0 <= v then v.Floor else -((-v).Floor)
  }

  /** Arduino's `random(lo, hi)` given one raw output of the generator. */
  function RandomIn(raw: nat, lo: int, hi: int): (r: int)
    ensures lo < hi ==> lo <= r < hi
    ensures hi <= lo ==> r == lo
  {
    if lo >= hi then lo else lo + raw % (hi - lo)
  }

  /** The upper end of the starting-radius draw: (int)(0.125 * MIN(X_MAX_BED, Y_MAX_BED)). */
  function RadiusBound(bed: Bed): int {
    Trunc(0.125 * (if bed.xMax < bed.yMax then bed.xMax else bed.yMax))
  }

  /** The two `while` loops that bring an angle back into range before it is handed to cos and sin. */
  method NormalizeAngle(a: real) returns (r: real, ghost turns: int)
    ensures 0.0 <= r <= 360.0
    ensures r == a + 360.0 * turns as real
    ensures 0.0 <= a <= 360.0 ==> r == a
    ensures r == 360.0 ==> 360.0 <= a
    ensures r == 0.0 ==> a <= 0.0
  {
    r, turns := a, 0;
    while r > 360.0
      invariant r == a + 360.0 * turns as real
      invariant turns <= 0
      invariant a > 360.0 ==> r > 0.0
      invariant a <= 360.0 ==> r == a
      decreases r.Floor
    {
      r, turns := r - 360.0, turns - 1;
    }
    while r < 0.0
      invariant r == a + 360.0 * turns as real
      invariant r <= 360.0
      invariant a < 0.0 ==> r < 360.0
      invariant a > 360.0 ==> r > 0.0
      invariant 0.0 <= a <= 360.0 ==> r == a
      decreases (-r).Floor
    {
      r, turns := r + 360.0, turns + 1;
    }
  }

  /** One leg's waypoint: the point at `angle` on the circle of `radius` around `centre`, clamped to the bed. */
  function Waypoint(bed: Bed, centre: Point, cosine: real, sine: real, radius: real): (w: Point)
    ensures WellFormed(bed) ==> InBed(bed, w)
    ensures InBed(bed, Point(centre.x + cosine * radius, centre.y + sine * radius))
      ==> w == Point(centre.x + cosine * radius, centre.y + sine * radius)
  {
    Point(Limit(centre.x + cosine * radius, bed.xMin, bed.xMax),
          Limit(centre.y + sine * radius, bed.yMin, bed.yMax))
  }
}
