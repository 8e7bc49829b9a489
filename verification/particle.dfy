/**
 A single particle: stochastic birth parameters sampled from the paint, then
 a per-tick lifecycle that derives a life position from the clock, fades the
 opacity in and out, marks the particle dead once its life is spent and moves
 it by a constant step.

 The clock and `Math.random()` are parameters: `now` is the clock reading of
 the tick, and a `BirthDraws` value holds the random draws one birth consumes.
 */
module Particles {
  import opened Geometry
  import opened Wrappers
  import opened Style

  /**
   The random draws of one birth, in the order the constructor consumes them.
   Square root and trigonometry are not modelled, so the first two draws come
   already transformed: `radialRoot` is the square root of the first draw and
   `cosTheta`/`sinTheta` are the cosine and sine of 2π times the second.
   */
  datatype BirthDraws = BirthDraws(
    radialRoot: real,
    cosTheta: real,
    sinTheta: real,
    elevation: real,
    velocity: real,
    scale: real,
    ttl: real,
    color: real
  )

  /** A value `Math.random()` can return. */
  predicate UnitDraw(u: real) {
    0.0 <= u < 1.0
  }

  /** Draws that `Math.random()` and the uninterpreted sqrt/cos/sin can produce. */
  predicate ValidDraws(d: BirthDraws) {
    && UnitDraw(d.radialRoot)
    && d.cosTheta * d.cosTheta + d.sinTheta * d.sinTheta == 1.0
    && UnitDraw(d.elevation)
    && UnitDraw(d.velocity)
    && UnitDraw(d.scale)
    && UnitDraw(d.ttl)
    && UnitDraw(d.color)
  }

  datatype Particle = Particle(
    direction: Vec3,
    velocity: real,
    timeToLive: real,
    minScale: real,
    maxScale: real,
    minTimeToLive: real,
    maxTimeToLive: real,
    isAlive: bool,
    locationOffset: Vec3,
    opacity: real,
    scale: real,
    birthTime: real,
    color: Rgb
  )

  const CloudMinScale: real := 10.0
  const CloudMaxScale: real := 30.0
  const DefaultMinScale: real := 0.5
  const DefaultMaxScale: real := 3.0

  /** Fallback for an unset or non-constant colour property. */
  const White: Rgba := Rgba(1.0, 1.0, 1.0, 1.0)

  /** Fallback for an unset or non-constant time-to-live bound. */
  const NoTimeToLive: real := -1.0

  /** Maps a draw `u` onto the range from `lo` to `hi` (`u * (hi - lo) + lo`). */
  function Sample(u: real, lo: real, hi: real): (v: real)
    ensures UnitDraw(u) ==> Between(v, lo, hi)
    ensures u == 0.0 ==> v == lo
    ensures lo == hi ==> v == lo
  {
    StepBetween(lo, hi, u);
    u * (hi - lo) + lo
  }

  /** The radius of the birth offset on the emitter's disc. */
  function BirthRadius(paint: Paint, d: BirthDraws): (r: real)
    ensures UnitDraw(d.radialRoot) ==>
              Between(r, ConstantOr(paint.offsetMin, 0.0), ConstantOr(paint.offsetMax, 0.0))
  {
    Sample(d.radialRoot, ConstantOr(paint.offsetMin, 0.0), ConstantOr(paint.offsetMax, 0.0))
  }

  /** The colour progress: the square of a draw, so it leans towards the start colour. */
  function ColourBias(d: BirthDraws): (t: real)
    ensures UnitDraw(d.color) ==> UnitDraw(t) && t <= d.color
  {
    FractionOf(d.color, d.color);
    d.color * d.color
  }

  function StartColour(paint: Paint): Rgba {
    ConstantOr(paint.colorStart, White)
  }

  function EndColour(paint: Paint): Rgba {
    ConstantOr(paint.colorEnd, White)
  }

  /** Each channel of `c` lies between the corresponding channels of `a` and `b`. */
  predicate ColourBetween(c: Rgb, a: Rgba, b: Rgba) {
    Between(c.r, a.r, b.r) && Between(c.g, a.g, b.g) && Between(c.b, a.b, b.b)
  }

  /**
   The particle constructor. The upper ends of the elevation and velocity
   ranges are read from the `-min` properties: the program reads the `-min`
   key for both ends, so both ranges are empty.
   */
  function Birth(paint: Paint, d: BirthDraws, now: real): (p: Particle)
    ensures p.isAlive && p.opacity == 1.0 && p.birthTime == now
    ensures p.direction == paint.direction
    ensures IsCloud(paint) ==> p.minScale == CloudMinScale && p.maxScale == CloudMaxScale
    ensures !IsCloud(paint) ==> p.minScale == DefaultMinScale && p.maxScale == DefaultMaxScale
    ensures ValidDraws(d) ==> p.minScale <= p.scale <= p.maxScale
    ensures p.minTimeToLive == ConstantOr(paint.ttlMin, NoTimeToLive)
    ensures p.maxTimeToLive == ConstantOr(paint.ttlMax, NoTimeToLive)
    ensures ValidDraws(d) ==> Between(p.timeToLive, p.minTimeToLive, p.maxTimeToLive)
    // whatever the draws: the elevation and velocity ranges collapse to their minimum
    ensures p.locationOffset.z == ConstantOr(paint.elevationMin, 0.0)
    ensures p.velocity == ConstantOr(paint.velocityMin, 0.0)
    ensures ValidDraws(d) ==> ColourBetween(p.color, StartColour(paint), EndColour(paint))
    ensures d.color == 0.0 ==>
              p.color == Rgb(StartColour(paint).r, StartColour(paint).g, StartColour(paint).b)
  {
    var clouds := IsCloud(paint);
    var r := BirthRadius(paint, d);
    var minElevation := ConstantOr(paint.elevationMin, 0.0);
    var maxElevation := ConstantOr(paint.elevationMin, 0.0);
    var minVelocity := ConstantOr(paint.velocityMin, 0.0);
    var maxVelocity := ConstantOr(paint.velocityMin, 0.0);
    var maxScale := if clouds then CloudMaxScale else DefaultMaxScale;
    var minScale := if clouds then CloudMinScale else DefaultMinScale;
    var minTimeToLive := ConstantOr(paint.ttlMin, NoTimeToLive);
    var maxTimeToLive := ConstantOr(paint.ttlMax, NoTimeToLive);
    var colorA := StartColour(paint);
    var colorB := EndColour(paint);
    var bias := ColourBias(d);
    Particle(
      direction := paint.direction,
      velocity := Sample(d.velocity, minVelocity, maxVelocity),
      timeToLive := Sample(d.ttl, minTimeToLive, maxTimeToLive),
      minScale := minScale,
      maxScale := maxScale,
      minTimeToLive := minTimeToLive,
      maxTimeToLive := maxTimeToLive,
      isAlive := true,
      locationOffset := Vec3(r * d.cosTheta, r * d.sinTheta,
                             Sample(d.elevation, minElevation, maxElevation)),
      opacity := 1.0,
      scale := Sample(d.scale, minScale, maxScale),
      birthTime := now,
      color := Rgb(Lerp(colorA.r, colorB.r, bias),
                   Lerp(colorA.g, colorB.g, bias),
                   Lerp(colorA.b, colorB.b, bias))
    )
  }

  /** The planar birth offset lies on the circle of radius `BirthRadius`. */
  lemma BirthOffsetOnCircle(paint: Paint, d: BirthDraws, now: real)
    requires ValidDraws(d)
    ensures var p := Birth(paint, d, now);
            var r := BirthRadius(paint, d);
            p.locationOffset.x * p.locationOffset.x + p.locationOffset.y * p.locationOffset.y == r * r
  {
    var r := BirthRadius(paint, d);
    calc {
      (r * d.cosTheta) * (r * d.cosTheta) + (r * d.sinTheta) * (r * d.sinTheta);
      r * r * (d.cosTheta * d.cosTheta + d.sinTheta * d.sinTheta);
      r * r;
    }
  }

  /** The `-max` elevation and velocity properties never influence a birth. */
  lemma BirthIgnoresMaxKeys(paint: Paint, d: BirthDraws, now: real, elevationMax: Option<real>, velocityMax: Option<real>)
    ensures Birth(paint.(elevationMax := elevationMax, velocityMax := velocityMax), d, now)
            == Birth(paint, d, now)
  {
  }

  /**
   With draws in [0, 1) the colour bias stays below 1, so a channel takes its
   end value only when the start and end values agree.
   */
  lemma BirthNeverReachesEndColour(paint: Paint, d: BirthDraws, now: real)
    requires ValidDraws(d)
    ensures var c := Birth(paint, d, now).color;
            && (c.r == EndColour(paint).r <==> StartColour(paint).r == EndColour(paint).r)
            && (c.g == EndColour(paint).g <==> StartColour(paint).g == EndColour(paint).g)
            && (c.b == EndColour(paint).b <==> StartColour(paint).b == EndColour(paint).b)
  {
  }

  /**
   The fraction of its life a particle has lived at `now`; a particle
   without a positive time-to-live sits at the middle of its life forever.
   */
  function LifePosition(p: Particle, now: real): (lp: real)
    ensures p.timeToLive > 0.0 ==> lp * p.timeToLive == now - p.birthTime
    ensures p.timeToLive <= 0.0 ==> lp == 0.5
  {
    if p.timeToLive > 0.0 then (now - p.birthTime) / p.timeToLive else 0.5
  }

  /** Piecewise-linear opacity: fade in over the first fifth of life, out over the last. */
  function Envelope(lp: real): (o: real)
    ensures o <= 1.0
    ensures 0.0 <= lp <= 1.0 ==> 0.0 <= o
  {
    if lp < 0.2 then lp / 0.2
    else if lp > 0.8 then (1.0 - lp) / 0.2
    else 1.0
  }

  /** The envelope is the distance to the nearer end of life, capped at 0.2 and scaled to 1. */
  lemma EnvelopeIsCappedDistanceToEnds(lp: real)
    ensures Envelope(lp) == Min(Min(lp, 1.0 - lp), 0.2) / 0.2
  {
  }

  /** Fading in and fading out mirror each other. */
  lemma EnvelopeSymmetric(lp: real)
    ensures Envelope(lp) == Envelope(1.0 - lp)
  {
  }

  lemma EnvelopeAtSamplePoints()
    ensures Envelope(0.0) == 0.0 && Envelope(0.1) == 0.5 && Envelope(0.5) == 1.0
    ensures Envelope(0.9) == 0.5 && Envelope(1.0) == 0.0
  {
  }

  /** The parameters fixed at birth agree between `p` and `q`. */
  predicate SameBirth(p: Particle, q: Particle) {
    q == p.(isAlive := q.isAlive, opacity := q.opacity, locationOffset := q.locationOffset)
  }

  /** One tick of a particle at clock reading `now`. */
  function Update(p: Particle, now: real): (q: Particle)
    ensures SameBirth(p, q)
    ensures q.isAlive <==> p.isAlive && LifePosition(p, now) < 1.0
    ensures q.opacity == Envelope(LifePosition(p, now)) && q.opacity <= 1.0
    ensures q.locationOffset == p.locationOffset.Plus(p.direction.Times(p.velocity))
  {
    var lp := LifePosition(p, now);
    var alive := if lp >= 1.0 then false else p.isAlive;
    var opacity := Envelope(lp);
    var step := p.direction.Times(p.velocity);
    p.(isAlive := alive, opacity := opacity, locationOffset := p.locationOffset.Plus(step))
  }

  /** With a positive time-to-live a tick kills the particle exactly when its time is up. */
  lemma DiesWhenTimeToLiveElapses(p: Particle, now: real)
    requires p.timeToLive > 0.0
    ensures Update(p, now).isAlive <==> p.isAlive && now - p.birthTime < p.timeToLive
  {
    var lp := LifePosition(p, now);
    if lp >= 1.0 {
      assert lp * p.timeToLive >= 1.0 * p.timeToLive;
    } else {
      assert lp * p.timeToLive < 1.0 * p.timeToLive;
    }
  }

  /** A particle updated in the tick that created it survives that tick. */
  lemma NewbornSurvivesFirstTick(paint: Paint, d: BirthDraws, now: real)
    ensures var q := Update(Birth(paint, d, now), now);
            && q.isAlive
            && q.opacity == (if Birth(paint, d, now).timeToLive > 0.0 then 0.0 else 1.0)
  {
  }

  /** A cloud particle keeps a scale in [10, 30] through its first tick. */
  lemma CloudNewbornScale(paint: Paint, d: BirthDraws, now: real)
    requires IsCloud(paint) && ValidDraws(d)
    ensures 10.0 <= Update(Birth(paint, d, now), now).scale <= 30.0
  {
  }

  /** The particle after ticks at the clock readings `clock`, in order. */
  function Run(p: Particle, clock: seq<real>): (q: Particle)
    ensures SameBirth(p, q)
    decreases |clock|
  {
    if |clock| == 0 then p else Run(Update(p, clock[0]), clock[1..])
  }

  /** Alive after a run exactly when alive before and no tick reached the end of life. */
  lemma {:induction false} RunAliveIff(p: Particle, clock: seq<real>)
    ensures Run(p, clock).isAlive <==>
              p.isAlive && forall i :: 0 <= i < |clock| ==> LifePosition(p, clock[i]) < 1.0
    decreases |clock|
  {
    if |clock| > 0 {
      var q := Update(p, clock[0]);
      RunAliveIff(q, clock[1..]);
      assert forall t :: LifePosition(q, t) == LifePosition(p, t);
      assert forall i :: 1 <= i < |clock| ==> clock[1..][i - 1] == clock[i];
    }
  }

  /** Once dead, a particle stays dead whatever ticks follow. */
  lemma {:induction false} DeadStaysDead(p: Particle, clock: seq<real>)
    requires !p.isAlive
    ensures !Run(p, clock).isAlive
  {
    RunAliveIff(p, clock);
  }

  /** Without a positive time-to-live a particle never dies by ticking. */
  lemma {:induction false} ImmortalWithoutTimeToLive(p: Particle, clock: seq<real>)
    requires p.timeToLive <= 0.0
    ensures Run(p, clock).isAlive == p.isAlive
  {
    RunAliveIff(p, clock);
  }

  /** Motion is one constant step per tick, independent of the clock. */
  lemma {:induction false} RunDrift(p: Particle, clock: seq<real>)
    ensures Run(p, clock).locationOffset
            == p.locationOffset.Plus(p.direction.Times(p.velocity * |clock| as real))
    decreases |clock|
  {
    if |clock| == 0 {
    } else {
      var q := Update(p, clock[0]);
      var n := (|clock| - 1) as real;
      RunDrift(q, clock[1..]);
      StepsAdd(p.locationOffset.x, p.direction.x, p.velocity, n);
      StepsAdd(p.locationOffset.y, p.direction.y, p.velocity, n);
      StepsAdd(p.locationOffset.z, p.direction.z, p.velocity, n);
    }
  }

  lemma StepsAdd(o: real, d: real, v: real, n: real)
    ensures o + d * v + d * (v * n) == o + d * (v * (n + 1.0))
  {
  }

  /** After a non-empty run the opacity is the envelope at the last tick. */
  lemma {:induction false} RunOpacity(p: Particle, clock: seq<real>)
    requires |clock| > 0
    ensures Run(p, clock).opacity == Envelope(LifePosition(p, clock[|clock| - 1]))
    decreases |clock|
  {
    var q := Update(p, clock[0]);
    if |clock| > 1 {
      RunOpacity(q, clock[1..]);
      assert LifePosition(q, clock[|clock| - 1]) == LifePosition(p, clock[|clock| - 1]);
    }
  }
}
