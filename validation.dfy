/** The parameter check that M48 runs before it touches the machine. */
module Validation {
  import opened Types

  /** The words of an M48 command as the parser hands them over: `None` when a letter is absent. */
  datatype Params = Params(
    v: Option<byte>,    // V: verbose level
    p: Option<byte>,    // P: number of samples
    e: bool,            // E: stow (engage) the probe for each reading
    x: Option<real>,    // X: sample position
    y: Option<real>,    // Y: sample position
    l: Option<byte>,    // L: legs of movement before each probe
    s: bool)            // S: schizoid (star) pattern

  datatype Error =
    | AxisUnhomed
    | VerboseNotPlausible
    | SampleSizeNotPlausible
    | OutOfBounds
    | LegsNotPlausible

  /** A checked test configuration. */
  datatype Config = Config(
    verbosity: int,
    samples: int,
    raise: RaiseMode,
    target: Point,
    legs: int,
    star: bool)

  datatype Result = Ok(config: Config) | Err(error: Error)

  predicate ConfigValid(c: Config) {
    0 <= c.verbosity <= 4 && 4 <= c.samples <= 50 && 0 <= c.legs <= 15 && c.legs != 1
  }

  /** The `int8_t` that an unsigned byte becomes when it is stored in a signed 8-bit variable. */
  function AsInt8(b: byte): (r: int)
    ensures -128 <= r < 128
    ensures (r + 256) % 256 == b
  {
    if b < 128 then b else b - 256
  }

  // The range checks, stated on the raw parser bytes.
  predicate VerbosityPlausible(p: Params) { p.v.None? || p.v.value <= 4 }
  predicate SampleSizePlausible(p: Params) { p.p.None? || 4 <= p.p.value <= 50 }
  predicate LegsPlausible(p: Params) { p.l.None? || p.l.value <= 15 }

  /** The probe point: X and Y if given, otherwise the nozzle position plus the probe's offset. */
  function Target(current: Point, offset: Point, p: Params): Point {
    Point(if p.x.Some? then p.x.value else current.x + offset.x,
          if p.y.Some? then p.y.value else current.y + offset.y)
  }

  /** The validation prefix of gcode_M48, checks in source order. */
  function Validate(homed: bool, current: Point, offset: Point, reachable: (real, real) -> bool, p: Params): (r: Result)
    ensures r == Err(AxisUnhomed) <==> !homed
    ensures r == Err(VerboseNotPlausible) <==> homed && !VerbosityPlausible(p)
    ensures r == Err(SampleSizeNotPlausible) <==>
      homed && VerbosityPlausible(p) && !SampleSizePlausible(p)
    ensures r == Err(OutOfBounds) <==>
      homed && VerbosityPlausible(p) && SampleSizePlausible(p)
      && !reachable(Target(current, offset, p).x, Target(current, offset, p).y)
    ensures r == Err(LegsNotPlausible) <==>
      homed && VerbosityPlausible(p) && SampleSizePlausible(p)
      && reachable(Target(current, offset, p).x, Target(current, offset, p).y) && !LegsPlausible(p)
    ensures r.Ok? ==> ConfigValid(r.config)
    ensures r.Ok? ==> r.config.verbosity == (if p.v.Some? then p.v.value else 1)
    ensures r.Ok? ==> r.config.samples == (if p.p.Some? then p.p.value else 10)
    ensures r.Ok? ==> r.config.raise == (if p.e then StowAfter else RaiseAfter)
    ensures r.Ok? ==> r.config.target == Target(current, offset, p)
    ensures r.Ok? ==> reachable(r.config.target.x, r.config.target.y)
    ensures r.Ok? ==> r.config.star == p.s
    ensures r.Ok? && p.l.None? ==> r.config.legs == (if p.s then 7 else 0)
    ensures r.Ok? && p.l.Some? ==> r.config.legs == (if p.l.value == 1 then 2 else p.l.value)
  {
    if !homed then Err(AxisUnhomed)
    else
      var verbose := if p.v.Some? then AsInt8(p.v.value) else 1;
      if !(0 <= verbose <= 4) then Err(VerboseNotPlausible)
      else
        var n := if p.p.Some? then AsInt8(p.p.value) else 10;
        if !(4 <= n <= 50) then Err(SampleSizeNotPlausible)
        else
          var raise := if p.e then StowAfter else RaiseAfter;
          var t := Target(current, offset, p);
          if !reachable(t.x, t.y) then Err(OutOfBounds)
          else
            var legs: int := if p.l.Some? then p.l.value else 0;
            if legs > 15 then Err(LegsNotPlausible)
            else
              var legs := if legs == 1 then 2 else legs;
              var legs := if p.s && p.l.None? then 7 else legs;
              Ok(Config(verbose, n, raise, t, legs, p.s))
  }
}
