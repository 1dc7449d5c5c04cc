/** gcode_M48, the Z-probe repeatability test, and the machine it drives. */
module M48 {
  import opened Types
  import opened Validation
  import opened Pattern
  import opened Statistics

  /** What one invocation of M48 ends with. */
  datatype Outcome =
    | Rejected(error: Error)
    | Ran(samples: seq<real>, finished: bool, stats: Stats)

  /** What probe call number k measures: the k-th supplied reading; a call past them all fails. */
  function ReadingAt(readings: seq<Option<real>>, k: nat): Option<real> {
    if k < |readings| then readings[k] else None
  }

  /** The readings of probe calls start, start + 1, ..., up to the first failed one and at most n of them. */
  function Accepted(readings: seq<Option<real>>, start: nat, n: nat): (r: seq<real>)
    ensures |r| <= n
    ensures forall i | 0 <= i < |r| :: ReadingAt(readings, start + i) == Some(r[i])
    ensures |r| < n ==> ReadingAt(readings, start + |r|).None?
  {
    if n == 0 then []
    else
      var prev := Accepted(readings, start, n - 1);
      if |prev| == n - 1 && ReadingAt(readings, start + n - 1).Some? then prev + [ReadingAt(readings, start + n - 1).value]
      else prev
  }

  /** A good reading right after a run of all-good ones extends Accepted by that reading. */
  lemma AcceptedExtends(readings: seq<Option<real>>, start: nat, n: nat)
    requires |Accepted(readings, start, n)| == n && ReadingAt(readings, start + n).Some?
    ensures Accepted(readings, start, n + 1) == Accepted(readings, start, n) + [ReadingAt(readings, start + n).value]
  {
  }

  /** Acceptance stops at the first failed reading: once call start + n fails, no later bound on
      the count changes the n accepted samples. */
  lemma AcceptedStops(readings: seq<Option<real>>, start: nat, n: nat, limit: nat)
    requires n <= limit && |Accepted(readings, start, n)| == n && ReadingAt(readings, start + n).None?
    ensures Accepted(readings, start, limit) == Accepted(readings, start, n)
  {
    AcceptedUnique(readings, start, limit, Accepted(readings, start, n));
  }

  /** The three properties of Accepted determine it: any sequence that has them is Accepted. */
  lemma {:induction false} AcceptedUnique(readings: seq<Option<real>>, start: nat, n: nat, s: seq<real>)
    requires |s| <= n
    requires forall i | 0 <= i < |s| :: ReadingAt(readings, start + i) == Some(s[i])
    requires |s| < n ==> ReadingAt(readings, start + |s|).None?
    ensures s == Accepted(readings, start, n)
  {
    if n > 0 {
      if |s| == n {
        var t := s[..n - 1];
        assert forall i | 0 <= i < |t| :: t[i] == s[i];
        AcceptedUnique(readings, start, n - 1, t);
        assert ReadingAt(readings, start + (n - 1)) == Some(s[n - 1]);
        assert s == t + [s[n - 1]];
      } else {
        AcceptedUnique(readings, start, n - 1, s);
      }
    }
  }

  /** Moves walked before each probe: n_legs - 1 of them, none when n_legs is 0. */
  function MovesPerSample(legs: int): int {
    if legs > 0 then legs - 1 else 0
  }

  /** Raw generator outputs taken before the first leg: the direction and the start angle, and the
      radius unless its range [5, RadiusBound) is empty, when random() returns 5 without drawing. */
  function StartDraws(bed: Bed): nat {
    2 + (if 5 < RadiusBound(bed) then 1 else 0)
  }

  /** Raw generator outputs taken by one pass: the start draws, plus one step per leg when the
      pattern is random; none when n_legs is 0. */
  function PassDraws(bed: Bed, cfg: Config): nat {
    if cfg.legs > 0 then StartDraws(bed) + (if cfg.star then 0 else cfg.legs - 1) else 0
  }

  /** Raw generator outputs taken by `passes` passes: PassDraws(bed, cfg) each. */
  function RunDraws(bed: Bed, cfg: Config, passes: nat): nat {
    if passes == 0 then 0 else RunDraws(bed, cfg, passes - 1) + PassDraws(bed, cfg)
  }

  /** The nozzle position that puts the probe over `target`. */
  function Centre(target: Point, offset: Point): Point {
    Point(target.x - offset.x, target.y - offset.y)
  }

  /** The events of one sample: the leg moves, all on the bed, then one quiet probe at the target. */
  ghost predicate SampleBlock(bed: Bed, cfg: Config, b: seq<Event>) {
    |b| == MovesPerSample(cfg.legs) + 1
    && b[|b| - 1] == Probe(cfg.target, cfg.raise, 0)
    && forall j | 0 <= j < |b| - 1 :: b[j].Move? && InBed(bed, b[j].to)
  }

  /** The events of the blocks, one block after another. */
  function Flatten(bs: seq<seq<Event>>): seq<Event> {
    if bs == [] then [] else Flatten(bs[..|bs| - 1]) + bs[|bs| - 1]
  }

  /** Appending one event after a recorded stretch extends that stretch. */
  lemma EventStep(t0: seq<Event>, es: seq<Event>, e: Event, t1: seq<Event>, t2: seq<Event>)
    requires t1 == t0 + es && t2 == t1 + [e]
    ensures t2 == t0 + (es + [e])
  {
  }

  /** Appending one more block after a recorded stretch of blocks extends that stretch. */
  lemma TraceStep(t0: seq<Event>, bs: seq<seq<Event>>, b: seq<Event>, t1: seq<Event>, t2: seq<Event>)
    requires t1 == t0 + Flatten(bs) && t2 == t1 + b
    ensures t2 == t0 + Flatten(bs + [b])
  {
    FlattenSnoc(bs, b);
  }

  /** One more well-formed block keeps every block well formed. */
  lemma BlocksStep(bed: Bed, cfg: Config, bs: seq<seq<Event>>, b: seq<Event>)
    requires forall i | 0 <= i < |bs| :: SampleBlock(bed, cfg, bs[i])
    requires SampleBlock(bed, cfg, b)
    ensures forall i | 0 <= i < |bs + [b]| :: SampleBlock(bed, cfg, (bs + [b])[i])
  {
  }

  lemma FlattenSnoc(bs: seq<seq<Event>>, b: seq<Event>)
    ensures Flatten(bs + [b]) == Flatten(bs) + b
  {
    assert (bs + [b])[..|bs|] == bs;
  }

  /** The number of probe calls among the events. */
  function ProbeCount(s: seq<Event>): nat {
    if s == [] then 0 else ProbeCount(s[..|s| - 1]) + (if s[|s| - 1].Probe? then 1 else 0)
  }

  /** The number of moves among the events. */
  function MoveCount(s: seq<Event>): nat {
    if s == [] then 0 else MoveCount(s[..|s| - 1]) + (if s[|s| - 1].Move? then 1 else 0)
  }

  /** Both counts add up over concatenation. */
  lemma {:induction false} CountsAppend(a: seq<Event>, b: seq<Event>)
    ensures ProbeCount(a + b) == ProbeCount(a) + ProbeCount(b)
    ensures MoveCount(a + b) == MoveCount(a) + MoveCount(b)
  {
    if b != [] {
      var c := b[..|b| - 1];
      var x := b[|b| - 1];
      assert a + b == (a + c) + [x];
      assert (a + b)[..|a + b| - 1] == a + c;
      CountsAppend(a, c);
      assert ProbeCount(a + b) == ProbeCount(a + c) + (if x.Probe? then 1 else 0);
      assert MoveCount(a + b) == MoveCount(a + c) + (if x.Move? then 1 else 0);
    } else {
      assert a + b == a;
    }
  }

  /** Where the nozzle is after the events, having started at `from`: the target of the last move
      or, when a probe came later, the point that put the probe over its target. */
  function Position(from: Point, offset: Point, s: seq<Event>): Point {
    if s == [] then from
    else if s[|s| - 1].Move? then s[|s| - 1].to
    else if s[|s| - 1].Probe? then Centre(s[|s| - 1].at, offset)
    else Position(from, offset, s[..|s| - 1])
  }

  /** One sample block holds one probe and MovesPerSample moves. */
  lemma {:induction false} BlockCounts(bed: Bed, cfg: Config, b: seq<Event>)
    requires SampleBlock(bed, cfg, b)
    ensures ProbeCount(b) == 1 && MoveCount(b) == MovesPerSample(cfg.legs)
  {
    var m := |b| - 1;
    var moves := b[..m];
    assert b == moves + [b[m]];
    CountsAppend(moves, [b[m]]);
    MovesOnly(moves);
  }

  /** A stretch made only of moves holds no probe. */
  lemma {:induction false} MovesOnly(s: seq<Event>)
    requires forall j | 0 <= j < |s| :: s[j].Move?
    ensures ProbeCount(s) == 0 && MoveCount(s) == |s|
  {
    if s != [] {
      MovesOnly(s[..|s| - 1]);
    }
  }

  /** Sample blocks flattened: one probe per sample and MovesPerSample moves per sample. */
  lemma {:induction false} FlattenedCounts(bed: Bed, cfg: Config, bs: seq<seq<Event>>)
    requires forall i | 0 <= i < |bs| :: SampleBlock(bed, cfg, bs[i])
    ensures ProbeCount(Flatten(bs)) == |bs|
    ensures MoveCount(Flatten(bs)) == |bs| * MovesPerSample(cfg.legs)
  {
    if bs != [] {
      var front, last := bs[..|bs| - 1], bs[|bs| - 1];
      FlattenedCounts(bed, cfg, front);
      BlockCounts(bed, cfg, last);
      CountsAppend(Flatten(front), last);
      assert |bs| * MovesPerSample(cfg.legs) == |front| * MovesPerSample(cfg.legs) + MovesPerSample(cfg.legs);
    }
  }

  /** Sample blocks flattened: every event is a move on the bed or a quiet probe at the target. */
  lemma {:induction false} FlattenedEvents(bed: Bed, cfg: Config, bs: seq<seq<Event>>)
    requires forall i | 0 <= i < |bs| :: SampleBlock(bed, cfg, bs[i])
    ensures forall e | e in Flatten(bs) :: e.Move? || e == Probe(cfg.target, cfg.raise, 0)
    ensures forall e | e in Flatten(bs) && e.Move? :: InBed(bed, e.to)
  {
    if bs != [] {
      var front, last := bs[..|bs| - 1], bs[|bs| - 1];
      FlattenedEvents(bed, cfg, front);
      assert SampleBlock(bed, cfg, last);
      forall e | e in last ensures (e.Move? || e == Probe(cfg.target, cfg.raise, 0)) && (e.Move? ==> InBed(bed, e.to)) {
        var j :| 0 <= j < |last| && last[j] == e;
      }
    }
  }

  /** What runs after the sampling loop on every path that got past validation. */
  function Teardown(finished: bool): seq<Event> {
    [Stow] + (if finished then [Finished] else []) + [CleanUp, LevelingRestored, PositionReported]
  }

  /** What the sampling phase of a run with configuration `cfg` did, when its first probe was call
      number p0: `body` is every probe and move it made, `blocks` the samples after the priming probe. */
  ghost predicate Conforms(bed: Bed, readings: seq<Option<real>>, cfg: Config, p0: nat,
                           body: seq<Event>, blocks: seq<seq<Event>>, out: Outcome)
  {
    var primed := ReadingAt(readings, p0).Some?;
    && ConfigValid(cfg)
    && out.Ran?
    && body == [Probe(cfg.target, cfg.raise, cfg.verbosity)] + Flatten(blocks)
    && (forall i | 0 <= i < |blocks| :: SampleBlock(bed, cfg, blocks[i]))
    && (primed ==> out.samples == Accepted(readings, p0 + 1, cfg.samples))
    && (!primed ==> out.samples == [])
    && |blocks| == (if !primed then 0 else if |out.samples| == cfg.samples then cfg.samples else |out.samples| + 1)
    && (out.finished <==> primed && |out.samples| == cfg.samples)
    && out.stats == Summary(out.samples)
  }

  /** The probe calls of a run: the priming probe and one per sample attempted; the moves: n_legs - 1
      per sample attempted. */
  lemma RunCounts(bed: Bed, readings: seq<Option<real>>, cfg: Config, p0: nat,
                  body: seq<Event>, blocks: seq<seq<Event>>, out: Outcome)
    requires Conforms(bed, readings, cfg, p0, body, blocks, out)
    ensures ProbeCount(body) == 1 + |blocks|
    ensures MoveCount(body) == |blocks| * MovesPerSample(cfg.legs)
    ensures |blocks| <= cfg.samples
    ensures forall e | e in body && e.Move? :: InBed(bed, e.to)
  {
    FlattenedCounts(bed, cfg, blocks);
    FlattenedEvents(bed, cfg, blocks);
    var prime := Probe(cfg.target, cfg.raise, cfg.verbosity);
    CountsAppend([prime], Flatten(blocks));
    assert ProbeCount([prime]) == 1 && MoveCount([prime]) == 0 by {
      assert [prime][..0] == [];
    }
  }

  /** The samples of a run are the readings of the probe calls after the priming one, in order;
      a run that did not finish ended on the first probe call that failed, its last one; a run
      that finished made every one of its n_samples + 1 probe calls good. */
  lemma RunReadings(bed: Bed, readings: seq<Option<real>>, cfg: Config, p0: nat,
                    body: seq<Event>, blocks: seq<seq<Event>>, out: Outcome)
    requires Conforms(bed, readings, cfg, p0, body, blocks, out)
    ensures forall i | 0 <= i < |out.samples| :: ReadingAt(readings, p0 + 1 + i) == Some(out.samples[i])
    ensures !out.finished ==> ReadingAt(readings, p0 + |blocks|).None?
    ensures !out.finished ==> forall k | p0 <= k < p0 + |blocks| :: ReadingAt(readings, k).Some?
    ensures out.finished ==> |out.samples| == cfg.samples == |blocks|
    ensures out.finished ==> forall k | p0 <= k <= p0 + cfg.samples :: ReadingAt(readings, k).Some?
  {
    var primed := ReadingAt(readings, p0).Some?;
    if primed {
      var s := out.samples;
      forall k | p0 < k < p0 + 1 + |s| ensures ReadingAt(readings, k).Some? {
        assert ReadingAt(readings, p0 + 1 + (k - p0 - 1)) == Some(s[k - p0 - 1]);
      }
    }
  }

  /** The summary a run reports: min <= mean <= max, every sample within [min, max], and a sum
      of squares sigma can be taken from. */
  lemma RunStatistics(bed: Bed, readings: seq<Option<real>>, cfg: Config, p0: nat,
                      body: seq<Event>, blocks: seq<seq<Event>>, out: Outcome)
    requires Conforms(bed, readings, cfg, p0, body, blocks, out) && out.samples != []
    ensures out.stats.min <= out.stats.mean <= out.stats.max
    ensures forall i | 0 <= i < |out.samples| :: out.stats.min <= out.samples[i] <= out.stats.max
    ensures out.stats.sumSq >= 0.0
  {
    MeanWithinExtremes(out.samples);
    LowestBound(out.samples);
    HighestBound(out.samples);
  }

  /** The calls up to the end of the sampling phase, regrouped as the setup events and the run's body. */
  lemma RunTrace(t: seq<Event>, prime: Event, bs: seq<seq<Event>>, t2: seq<Event>)
    requires t2 == t + [LevelingOff] + [Setup] + [prime] + Flatten(bs)
    ensures t2 == t + [LevelingOff, Setup] + ([prime] + Flatten(bs))
  {
    assert t + [LevelingOff] + [Setup] == t + [LevelingOff, Setup];
  }

  /** What the sampling phase leaves behind, on the primed and on the unprimed path, is a run
      that conforms to the configuration. */
  /** What the sampling loop collected from the readings starting at call `start`, with room for
      `total` samples: the accepted samples, `good` exactly when all were taken, one extra pass
      after a failure, and the statistics of the samples. */
  ghost predicate Collected(readings: seq<Option<real>>, start: nat, total: nat, s: seq<real>, good: bool,
                            passes: nat, stats: Stats)
  {
    && s == Accepted(readings, start, total) && (good <==> |s| == total)
    && passes == (if good then |s| else |s| + 1)
    && stats == Summary(s)
  }

  lemma RunConforms(bed: Bed, readings: seq<Option<real>>, cfg: Config, p0: nat, primed: bool,
                    s: seq<real>, good: bool, stats: Stats,
                    blocks: seq<seq<Event>>)
    requires ConfigValid(cfg) && primed == ReadingAt(readings, p0).Some?
    requires primed ==> Collected(readings, p0 + 1, cfg.samples, s, good, |blocks|, stats)
    requires !primed ==>
      (s == [] && !good && blocks == [] && stats == Initial)
    requires forall i | 0 <= i < |blocks| :: SampleBlock(bed, cfg, blocks[i])
    ensures Conforms(bed, readings, cfg, p0, [Probe(cfg.target, cfg.raise, cfg.verbosity)] + Flatten(blocks),
                     blocks, Ran(s, good, stats))
  {
  }

  /** The angles of the legs: each is the one before it (the start angle for the first) plus its
      step, brought back into range by whole turns. */
  ghost predicate AngleWalk(start: real, angles: seq<real>, steps: seq<real>, turns: seq<int>) {
    |angles| == |steps| == |turns|
    && forall i {:trigger steps[i]} | 0 <= i < |angles| ::
      angles[i] == (if i == 0 then start else angles[i - 1]) + steps[i] + 360.0 * turns[i] as real
  }

  /** One leg's angle step in direction `dir` (1 or -1): two star points (144 degrees) in the
      star pattern, otherwise a random 25 to 44 degrees. */
  predicate StepOk(star: bool, dir: int, x: real) {
    if star then x == (if dir > 0 then StarStep else -StarStep)
    else if dir > 0 then 25.0 <= x < 45.0
    else -45.0 < x <= -25.0
  }

  ghost predicate StepsFollow(star: bool, dir: int, steps: seq<real>) {
    forall i | 0 <= i < |steps| :: StepOk(star, dir, steps[i])
  }

  /** The angle the next leg steps from: the last leg's, or the start angle before the first leg. */
  function Last(start: real, angles: seq<real>): real {
    if angles == [] then start else angles[|angles| - 1]
  }

  /** One more leg whose angle is the last one plus its step, modulo whole turns, keeps the walk. */
  lemma AngleWalkSnoc(start: real, angles: seq<real>, steps: seq<real>, turns: seq<int>,
                      a: real, s: real, t: int)
    requires AngleWalk(start, angles, steps, turns)
    requires a == Last(start, angles) + s + 360.0 * t as real
    ensures AngleWalk(start, angles + [a], steps + [s], turns + [t])
  {
    var as', ss, ts := angles + [a], steps + [s], turns + [t];
    forall i | 0 <= i < |as'|
      ensures as'[i] == (if i == 0 then start else as'[i - 1]) + ss[i] + 360.0 * ts[i] as real
    {
      if i < |angles| {
        assert as'[i] == angles[i] && ss[i] == steps[i] && ts[i] == turns[i];
        if i > 0 { assert as'[i - 1] == angles[i - 1]; }
      } else {
        assert as'[i] == a && ss[i] == s && ts[i] == t;
        if i > 0 { assert as'[i - 1] == angles[|angles| - 1]; }
      }
    }
  }

  /** One more step that follows the pattern keeps the pattern. */
  lemma StepsFollowSnoc(star: bool, dir: int, steps: seq<real>, s: real)
    requires StepsFollow(star, dir, steps) && StepOk(star, dir, s)
    ensures StepsFollow(star, dir, steps + [s])
  {
    forall i | 0 <= i < |steps + [s]| ensures StepOk(star, dir, (steps + [s])[i]) {
      if i < |steps| { assert (steps + [s])[i] == steps[i]; } else { assert (steps + [s])[i] == s; }
    }
  }

  /** The printer as M48 sees it: what it measures and draws come in as inputs; what it is asked
      to do is recorded in `trace`. */
  class Machine {
    const homed: bool                     // !axis_unhomed_error()
    const offset: Point                   // probe offset from the nozzle
    const bed: Bed
    const reachable: (real, real) -> bool // position_is_reachable_by_probe
    const readings: seq<Option<real>>    // what the k-th call of check_pt measures; None for NaN
    const prng: nat -> nat                // the k-th raw output of the random generator, taken by the k-th random() call with a non-empty range
    const cosOf: real -> real             // cos(RADIANS(angle))
    const sinOf: real -> real             // sin(RADIANS(angle))

    var current: Point                    // nozzle XY position
    var leveling: bool                    // bed leveling correction enabled
    var levelingSaved: bool               // the state restore_bed_leveling_state returns to
    var trace: seq<Event>
    var probes: nat                       // check_pt calls so far
    var draws: nat                        // random() calls so far

    /** The bed limits are ordered, as a machine configuration requires. */
    predicate Valid() {
      WellFormed(bed)
    }

    constructor (homed: bool, offset: Point, bed: Bed, reachable: (real, real) -> bool,
                 readings: seq<Option<real>>, prng: nat -> nat, cosOf: real -> real, sinOf: real -> real,
                 current: Point, leveling: bool)
      requires WellFormed(bed)
      ensures Valid()
      ensures this.homed == homed && this.offset == offset && this.bed == bed && this.reachable == reachable
      ensures this.readings == readings && this.prng == prng && this.cosOf == cosOf && this.sinOf == sinOf
      ensures this.current == current && this.leveling == leveling
      ensures trace == [] && probes == 0 && draws == 0
    {
      this.homed, this.offset, this.bed, this.reachable := homed, offset, bed, reachable;
      this.readings, this.prng, this.cosOf, this.sinOf := readings, prng, cosOf, sinOf;
      this.current, this.leveling, this.levelingSaved := current, leveling, leveling;
      trace, probes, draws := [], 0, 0;
    }

    /** probe.check_pt: move the probe over `at` and probe there; the result is the next reading,
        None when it came back NaN. */
    method CheckPt(at: Point, raise: RaiseMode, verbosity: int) returns (z: Option<real>)
      modifies this`trace, this`probes, this`current
      ensures trace == old(trace) + [Probe(at, raise, verbosity)]
      ensures current == Centre(at, offset)
      ensures probes == old(probes) + 1
      ensures z == ReadingAt(readings, old(probes))
    {
      z := ReadingAt(readings, probes);
      trace := trace + [Probe(at, raise, verbosity)];
      current := Centre(at, offset);
      probes := probes + 1;
    }

    /** random(lo, hi): an empty range gives lo without touching the generator; otherwise the next
        raw output is taken and mapped into [lo, hi). */
    method Random(lo: int, hi: int) returns (r: int)
      modifies this`draws
      ensures draws == old(draws) + (if lo < hi then 1 else 0)
      ensures r == RandomIn(prng(old(draws)), lo, hi)
    {
      r := RandomIn(prng(draws), lo, hi);
      if lo < hi {
        draws := draws + 1;
      }
    }

    /** do_blocking_move_to_xy. */
    method MoveTo(to: Point)
      modifies this`trace, this`current
      ensures trace == old(trace) + [Move(to)] && current == to
    {
      trace := trace + [Move(to)];
      current := to;
    }

    /** A collaborator called for its effect alone: setup, stow, summary, clean-up, position report. */
    method Signal(e: Event)
      requires e.Setup? || e.Stow? || e.Finished? || e.CleanUp? || e.PositionReported?
      modifies this`trace
      ensures trace == old(trace) + [e]
    {
      trace := trace + [e];
    }

    /** bedlevel.set_bed_leveling_enabled(false), remembering the state to restore. */
    method DisableLeveling()
      modifies this`trace, this`leveling, this`levelingSaved
      ensures trace == old(trace) + [LevelingOff]
      ensures !leveling && levelingSaved == old(leveling)
    {
      levelingSaved := leveling;
      leveling := false;
      trace := trace + [LevelingOff];
    }

    /** bedlevel.restore_bed_leveling_state(). */
    method RestoreLeveling()
      modifies this`trace, this`leveling
      ensures trace == old(trace) + [LevelingRestored]
      ensures leveling == levelingSaved
    {
      leveling := levelingSaved;
      trace := trace + [LevelingRestored];
    }

    /** The legs walked before one probe (only called when n_legs != 0): a random start on a circle
        around the target, then n_legs - 1 moves, each after a star or random angle step, to the
        point at the new angle clamped to the bed. */
    method WalkLegs(cfg: Config)
      returns (ghost moves: seq<Event>, ghost angles: seq<real>, ghost radius: real,
               ghost dir: int, ghost start: real, ghost steps: seq<real>, ghost turns: seq<int>)
      requires Valid() && cfg.legs > 0
      modifies this`trace, this`current, this`draws
      ensures trace == old(trace) + moves && current == Position(old(current), offset, moves)
      ensures |moves| == |angles| == |steps| == |turns| == cfg.legs - 1
      ensures LegsAt(Centre(cfg.target, offset), radius, moves, angles)
      ensures forall i | 0 <= i < |moves| :: moves[i].Move? && InBed(bed, moves[i].to)
      ensures 5.0 <= radius && (5 < RadiusBound(bed) ==> radius < RadiusBound(bed) as real)
      ensures (dir == 1 || dir == -1) && 0.0 <= start < 360.0
      ensures dir == (if RandomIn(prng(old(draws)), 0, 10) > 5 then -1 else 1)
      ensures start == RandomIn(prng(old(draws) + 1), 0, 360) as real
      ensures radius == RandomIn(prng(old(draws) + 2), 5, RadiusBound(bed)) as real
      ensures AngleWalk(start, angles, steps, turns) && StepsFollow(cfg.star, dir, steps)
      ensures draws == old(draws) + StartDraws(bed) + (if cfg.star then 0 else cfg.legs - 1)
    {
      var sense, angle, rad := StartLegs();
      dir, start, radius := sense, angle, rad;
      moves, angles, steps, turns := [], [], [], [];
      var centre := Centre(cfg.target, offset);
      for l := 0 to cfg.legs - 1
        invariant trace == old(trace) + moves && current == Position(old(current), offset, moves)
        invariant |moves| == l && angle == Last(start, angles)
        invariant Walked(cfg.star, centre, radius, dir, start, moves, angles, steps, turns)
        invariant draws == old(draws) + StartDraws(bed) + (if cfg.star then 0 else l)
      {
        ghost var step, turn;
        ghost var t1 := trace;
        var prev := angle;
        angle, step, turn := Leg(cfg, centre, rad, sense, prev);
        var w := Waypoint(bed, centre, cosOf(angle), sinOf(angle), rad);
        EventStep(old(trace), moves, Move(w), t1, trace);
        WalkedSnoc(cfg.star, centre, radius, dir, start, moves, angles, steps, turns, angle, step, turn);
        moves, angles, steps, turns := moves + [Move(w)], angles + [angle], steps + [step], turns + [turn];
      }
      forall i | 0 <= i < |moves| ensures moves[i].Move? && InBed(bed, moves[i].to) {
        assert moves[i] == Move(Waypoint(bed, centre, cosOf(angles[i]), sinOf(angles[i]), radius));
      }
    }

    /** The legs walked so far follow the pattern. */
    ghost predicate Walked(star: bool, centre: Point, radius: real, dir: int, start: real,
                           moves: seq<Event>, angles: seq<real>, steps: seq<real>, turns: seq<int>) {
      LegsAt(centre, radius, moves, angles) && AngleWalk(start, angles, steps, turns) && StepsFollow(star, dir, steps)
    }

    /** One more leg with an in-range angle and a pattern step keeps the legs walked so far. */
    lemma WalkedSnoc(star: bool, centre: Point, radius: real, dir: int, start: real,
                     moves: seq<Event>, angles: seq<real>, steps: seq<real>, turns: seq<int>,
                     a: real, s: real, t: int)
      requires Walked(star, centre, radius, dir, start, moves, angles, steps, turns)
      requires 0.0 <= a <= 360.0 && StepOk(star, dir, s)
      requires a == Last(start, angles) + s + 360.0 * t as real
      ensures Walked(star, centre, radius, dir, start, moves + [Move(Waypoint(bed, centre, cosOf(a), sinOf(a), radius))],
                     angles + [a], steps + [s], turns + [t])
    {
      LegsAtSnoc(centre, radius, moves, angles, a);
      AngleWalkSnoc(start, angles, steps, turns, a, s, t);
      StepsFollowSnoc(star, dir, steps, s);
    }

    /** The moves of the legs: the i-th goes to the point at the i-th angle, in [0, 360], on the
        circle of `radius` around `centre`, clamped to the bed. */
    ghost predicate LegsAt(centre: Point, radius: real, moves: seq<Event>, angles: seq<real>) {
      |moves| == |angles|
      && forall i | 0 <= i < |moves| ::
        0.0 <= angles[i] <= 360.0
        && moves[i] == Move(Waypoint(bed, centre, cosOf(angles[i]), sinOf(angles[i]), radius))
    }

    /** One more move to the waypoint at an angle in [0, 360] keeps the leg moves. */
    lemma LegsAtSnoc(centre: Point, radius: real, moves: seq<Event>, angles: seq<real>, a: real)
      requires LegsAt(centre, radius, moves, angles) && 0.0 <= a <= 360.0
      ensures LegsAt(centre, radius, moves + [Move(Waypoint(bed, centre, cosOf(a), sinOf(a), radius))], angles + [a])
    {
      var ms := moves + [Move(Waypoint(bed, centre, cosOf(a), sinOf(a), radius))];
      forall i | 0 <= i < |ms|
        ensures 0.0 <= (angles + [a])[i] <= 360.0
          && ms[i] == Move(Waypoint(bed, centre, cosOf((angles + [a])[i]), sinOf((angles + [a])[i]), radius))
      {
        if i < |moves| { assert ms[i] == moves[i] && (angles + [a])[i] == angles[i]; }
      }
    }

    /** The three draws before the first leg: the direction (random(0, 10) > 5 turns clockwise),
        the start angle random(0, 360) and the radius random(5, (int)(0.125 * MIN(X_MAX_BED, Y_MAX_BED))). */
    method StartLegs() returns (sense: int, angle: real, radius: real)
      modifies this`draws
      ensures sense == (if RandomIn(prng(old(draws)), 0, 10) > 5 then -1 else 1)
      ensures angle == RandomIn(prng(old(draws) + 1), 0, 360) as real && 0.0 <= angle < 360.0
      ensures radius == RandomIn(prng(old(draws) + 2), 5, RadiusBound(bed)) as real
      ensures 5.0 <= radius && (5 < RadiusBound(bed) ==> radius < RadiusBound(bed) as real)
      ensures draws == old(draws) + StartDraws(bed)
    {
      var d := Random(0, 10);
      sense := if d > 5 then -1 else 1;
      var a := Random(0, 360);
      angle := a as real;
      var r := Random(5, RadiusBound(bed));
      radius := r as real;
    }

    /** One leg: step the angle by a star step or a random 25 to 44 degrees in direction `sense`,
        bring it back into range, and move to the point at that angle, clamped to the bed. */
    method Leg(cfg: Config, centre: Point, radius: real, sense: int, angle: real)
      returns (next: real, ghost step: real, ghost turn: int)
      requires sense == 1 || sense == -1
      modifies this`trace, this`current, this`draws
      ensures 0.0 <= next <= 360.0 && next == angle + step + 360.0 * turn as real
      ensures StepOk(cfg.star, sense, step)
      ensures !cfg.star ==> step == (if sense > 0 then RandomIn(prng(old(draws)), 25, 45) as real
                                     else -(RandomIn(prng(old(draws)), 25, 45) as real))
      ensures trace == old(trace) + [Move(Waypoint(bed, centre, cosOf(next), sinOf(next), radius))]
      ensures current == Waypoint(bed, centre, cosOf(next), sinOf(next), radius)
      ensures draws == old(draws) + (if cfg.star then 0 else 1)
    {
      var delta: real;
      if cfg.star {
        delta := if sense > 0 then StarStep else -StarStep;
      } else {
        var k := Random(25, 45);
        delta := if sense > 0 then k as real else -(k as real);
      }
      step := delta;
      next, turn := NormalizeAngle(angle + delta);
      MoveTo(Waypoint(bed, centre, cosOf(next), sinOf(next), radius));
    }

    /** The moves of a pass (all of it but the final probe) walk the legs of `cfg` around the target,
        turning in direction `dir` from the angle `start`, on a circle of the drawn radius. */
    ghost predicate PassWalked(cfg: Config, block: seq<Event>, angles: seq<real>, radius: real,
                               dir: int, start: real, steps: seq<real>, turns: seq<int>) {
      && |block| > 0
      && (dir == 1 || dir == -1) && 0.0 <= start < 360.0
      && 5.0 <= radius && (5 < RadiusBound(bed) ==> radius < RadiusBound(bed) as real)
      && Walked(cfg.star, Centre(cfg.target, offset), radius, dir, start, block[..|block| - 1], angles, steps, turns)
    }

    /** One pass of the sampling loop up to its probe: the legs, if any, then probe.check_pt at the
        target with verbosity 0. The leg moves follow the angle walk of direction `dir` from `start`. */
    method TakeSample(cfg: Config)
      returns (z: Option<real>, ghost block: seq<Event>, ghost angles: seq<real>, ghost radius: real,
               ghost dir: int, ghost start: real, ghost steps: seq<real>, ghost turns: seq<int>)
      requires Valid() && ConfigValid(cfg)
      modifies this`trace, this`current, this`draws, this`probes
      ensures SampleBlock(bed, cfg, block)
      ensures cfg.legs > 0 ==> PassWalked(cfg, block, angles, radius, dir, start, steps, turns)
      ensures trace == old(trace) + block && current == Centre(cfg.target, offset)
      ensures probes == old(probes) + 1 && z == ReadingAt(readings, old(probes))
      ensures draws == old(draws) + PassDraws(bed, cfg)
    {
      ghost var legMoves: seq<Event> := [];
      angles, radius, dir, start, steps, turns := [], 0.0, 1, 0.0, [], [];
      if cfg.legs != 0 {
        legMoves, angles, radius, dir, start, steps, turns := WalkLegs(cfg);
      }
      z := CheckPt(cfg.target, cfg.raise, 0);
      block := legMoves + [Probe(cfg.target, cfg.raise, 0)];
      assert block[..|block| - 1] == legMoves;
    }

    /** After the passes `blocks` of a sampling phase that began with trace t0, the nozzle at c0 and
        d0 draws: every pass is well formed, the trace holds them in order, the nozzle is over the
        target once a pass has probed, and each pass made its draws. */
    ghost predicate Passed(cfg: Config, t0: seq<Event>, c0: Point, d0: nat, blocks: seq<seq<Event>>)
      reads this`trace, this`current, this`draws
    {
      && (forall i | 0 <= i < |blocks| :: SampleBlock(bed, cfg, blocks[i]))
      && trace == t0 + Flatten(blocks)
      && current == (if blocks == [] then c0 else Centre(cfg.target, offset))
      && draws == d0 + RunDraws(bed, cfg, |blocks|)
    }

    /** One more pass of the sampling loop, appended to the passes so far. */
    method Pass(cfg: Config, ghost t0: seq<Event>, ghost c0: Point, ghost d0: nat, ghost blocks: seq<seq<Event>>)
      returns (z: Option<real>, ghost block: seq<Event>)
      requires Valid() && ConfigValid(cfg) && Passed(cfg, t0, c0, d0, blocks)
      modifies this`trace, this`current, this`draws, this`probes
      ensures Passed(cfg, t0, c0, d0, blocks + [block])
      ensures probes == old(probes) + 1 && z == ReadingAt(readings, old(probes))
    {
      ghost var t1 := trace;
      ghost var angles, radius, dir, from, steps, turns;
      z, block, angles, radius, dir, from, steps, turns := TakeSample(cfg);
      TraceStep(t0, blocks, block, t1, trace);
      BlocksStep(bed, cfg, blocks, block);
    }

    /** The sampling loop: up to n_samples passes, each walking the legs and probing once, stopping
        at the first failed probe; after every accepted sample the mean, min, max and sum of squared
        deviations are recomputed over the samples so far. */
    method SampleLoop(cfg: Config, sampleSet: array<real>)
      returns (n: nat, good: bool, stats: Stats, ghost blocks: seq<seq<Event>>)
      requires Valid() && ConfigValid(cfg) && sampleSet.Length == cfg.samples
      modifies this`trace, this`current, this`draws, this`probes, sampleSet
      ensures n <= cfg.samples && Collected(readings, old(probes), cfg.samples, sampleSet[..n], good, |blocks|, stats)
      ensures Passed(cfg, old(trace), old(current), old(draws), blocks)
      ensures probes == old(probes) + |blocks|
    {
      ghost var start, t0, c0, d0 := probes, trace, current, draws;
      n, good := 0, true;
      stats := Initial;
      blocks := [];
      while n < cfg.samples
        invariant 0 <= n <= cfg.samples && good
        invariant probes == start + n && |blocks| == n
        invariant Sampled(sampleSet, start, n, stats)
        invariant Passed(cfg, t0, c0, d0, blocks)
      {
        ghost var block;
        var z;
        z, block := Pass(cfg, t0, c0, d0, blocks);
        blocks := blocks + [block];

        good := z.Some?;
        if !good {
          CollectedStop(sampleSet, start, n, cfg.samples, stats);
          break;
        }

        stats := Accept(sampleSet, n, z.value, stats, start);
        n := n + 1;
      }
      if good {
        CollectedAll(sampleSet, start, cfg.samples, stats);
      }
    }

    /** sample_set[0..n-1] holds the samples accepted from call `start` on, and `stats` sums them up. */
    ghost predicate Sampled(sampleSet: array<real>, start: nat, n: nat, stats: Stats)
      reads sampleSet
    {
      n <= sampleSet.Length && sampleSet[..n] == Accepted(readings, start, n) && stats == Summary(sampleSet[..n])
    }

    /** A loop that took all `total` samples collected them all. */
    lemma CollectedAll(sampleSet: array<real>, start: nat, total: nat, stats: Stats)
      requires Sampled(sampleSet, start, total, stats)
      ensures Collected(readings, start, total, sampleSet[..total], true, total, stats)
    {
    }

    /** A loop that stopped at its first failed reading, after n samples, collected those n. */
    lemma CollectedStop(sampleSet: array<real>, start: nat, n: nat, total: nat, stats: Stats)
      requires Sampled(sampleSet, start, n, stats) && n < total && ReadingAt(readings, start + n).None?
      ensures Collected(readings, start, total, sampleSet[..n], false, n + 1, stats)
    {
      AcceptedStops(readings, start, n, total);
    }

    /** An accepted reading, the next of those from call `start` on, is stored and summarised. */
    method Accept(sampleSet: array<real>, n: nat, x: real, stats: Stats, ghost start: nat)
      returns (stats': Stats)
      requires n < sampleSet.Length && Sampled(sampleSet, start, n, stats)
      requires ReadingAt(readings, start + n) == Some(x)
      modifies sampleSet
      ensures Sampled(sampleSet, start, n + 1, stats')
    {
      AcceptedExtends(readings, start, n);
      stats' := Record(sampleSet, n, x, stats, sampleSet[..n]);
    }

    /** Store an accepted sample in sample_set[n] and recompute the statistics over sample_set[0..n]. */
    static method Record(sampleSet: array<real>, n: nat, x: real, stats: Stats, ghost prev: seq<real>)
      returns (stats': Stats)
      requires n < sampleSet.Length && sampleSet[..n] == prev
      requires stats == Summary(prev)
      modifies sampleSet
      ensures sampleSet[..n + 1] == prev + [x]
      ensures stats' == Summary(prev + [x])
    {
      sampleSet[n] := x;
      assert sampleSet[..n + 1] == prev + [x];
      assert (prev + [x])[..n] == prev;
      var mean := PrefixMean(sampleSet, n + 1);
      var min, max := stats.min, stats.max;
      if min > x { min := x; }
      if max < x { max := x; }
      var sumSq := PrefixSqDev(sampleSet, n + 1, mean);
      stats' := Stats(mean, min, max, sumSq);
    }

    /** What follows the sampling phase on every path: stow the probe, print the summary only if
        probing stayed good, clean up, restore leveling, report the position. */
    method Conclude(finished: bool)
      modifies this`trace, this`leveling
      ensures trace == old(trace) + Teardown(finished)
      ensures leveling == levelingSaved
    {
      Signal(Stow);
      if finished {
        Signal(Finished);
      }
      ghost var mid := trace;
      Signal(CleanUp);
      RestoreLeveling();
      Signal(PositionReported);
      assert trace == mid + [CleanUp, LevelingRestored, PositionReported];
    }

    /** Everything gcode_M48 does once validation passed: leveling off, setup, the priming probe,
        the sampling loop, then teardown. */
    method Measure(cfg: Config) returns (out: Outcome, ghost body: seq<Event>, ghost blocks: seq<seq<Event>>)
      requires Valid() && ConfigValid(cfg)
      modifies this
      ensures Conforms(bed, readings, cfg, old(probes), body, blocks, out)
      ensures trace == old(trace) + [LevelingOff, Setup] + body + Teardown(out.finished)
      ensures probes == old(probes) + 1 + |blocks|
      ensures draws == old(draws) + RunDraws(bed, cfg, |blocks|) && current == Centre(cfg.target, offset)
      ensures leveling == old(leveling) && levelingSaved == old(leveling)
    {
      DisableLeveling();
      Signal(Setup);

      var sampleSet := new real[cfg.samples];
      var n, stats := 0, Initial;

      ghost var p0 := probes;
      var prime := Probe(cfg.target, cfg.raise, cfg.verbosity);
      var t := CheckPt(cfg.target, cfg.raise, cfg.verbosity);
      var good := t.Some?;
      ghost var primed := good;
      blocks := [];
      assert Passed(cfg, trace, current, draws, blocks);
      if good {
        n, good, stats, blocks := SampleLoop(cfg, sampleSet);
      }
      var samples := sampleSet[..n];
      body := [prime] + Flatten(blocks);
      RunTrace(old(trace), prime, blocks, trace);
      RunConforms(bed, readings, cfg, p0, primed, samples, good, stats, blocks);
      out := Ran(samples, good, stats);
      Conclude(good);
    }

    /** gcode_M48: validate the parameters; on any error return before anything is touched,
        otherwise measure. */
    method Command(p: Params) returns (out: Outcome, ghost body: seq<Event>, ghost blocks: seq<seq<Event>>)
      requires Valid()
      modifies this
      ensures var r := Validate(homed, old(current), offset, reachable, p);
        r.Err? ==> out == Rejected(r.error) && trace == old(trace) && probes == old(probes)
                   && draws == old(draws) && current == old(current) && levelingSaved == old(levelingSaved)
      ensures var r := Validate(homed, old(current), offset, reachable, p);
        r.Ok? ==> Conforms(bed, readings, r.config, old(probes), body, blocks, out)
                  && trace == old(trace) + [LevelingOff, Setup] + body + Teardown(out.finished)
                  && probes == old(probes) + 1 + |blocks| && levelingSaved == old(leveling)
                  && draws == old(draws) + RunDraws(bed, r.config, |blocks|) && current == Centre(r.config.target, offset)
      ensures leveling == old(leveling)
    {
      var r := Validate(homed, current, offset, reachable, p);
      if r.Err? {
        out, body, blocks := Rejected(r.error), [], [];
        return;
      }
      out, body, blocks := Measure(r.config);
    }
  }
}
