/**
 An emitter: a spawn point fixed at a mercator position that keeps a bounded
 population of particles. Each update tops the population up to the cap,
 advances every particle by one tick and drops the dead ones.

 Births draw from a random stream `rng`, starting at position `k`; an update
 consumes `Births(e)` consecutive entries.
 */
module Emitters {
  import opened Geometry
  import opened Style
  import Particles

  datatype Emitter = Emitter(
    particles: seq<Particles.Particle>,
    location: Point,
    tileId: TileId,
    mercatorPoint: Point,
    paint: Paint,
    maxParticleCount: nat
  )

  /** The cap is the one the paint selects, and the population respects it. */
  predicate Valid(e: Emitter) {
    e.maxParticleCount == MaxParticleCount(e.paint) && |e.particles| <= e.maxParticleCount
  }

  /** A new emitter with no particles and its population cap fixed from the paint. */
  function Create(location: Point, tileId: TileId, mercatorPoint: Point, paint: Paint): (e: Emitter)
    ensures e.particles == []
    ensures e.location == location && e.tileId == tileId
    ensures e.mercatorPoint == mercatorPoint && e.paint == paint
    ensures e.maxParticleCount == 100 <==> IsCloud(paint)
    ensures e.maxParticleCount == 250 <==> !IsCloud(paint)
    ensures Valid(e)
  {
    Emitter([], location, tileId, mercatorPoint, paint, MaxParticleCount(paint))
  }

  /** How many particles the next update creates. */
  function Births(e: Emitter): nat {
    if |e.particles| < e.maxParticleCount then e.maxParticleCount - |e.particles| else 0
  }

  /**
   The top-up loop: while fewer than `cap` particles exist, append one born
   from the next draw of the stream.
   */
  function TopUp(ps: seq<Particles.Particle>, cap: nat, paint: Paint, now: real,
                 rng: nat -> Particles.BirthDraws, k: nat): (r: seq<Particles.Particle>)
    ensures |r| == if |ps| < cap then cap else |ps|
    ensures r[..|ps|] == ps
    decreases cap - |ps|
  {
    if |ps| < cap then
      var r := TopUp(ps + [Particles.Birth(paint, rng(k), now)], cap, paint, now, rng, k + 1);
      assert r[..|ps|] == (r[..|ps| + 1])[..|ps|];
      r
    else
      ps
  }

  /** The `j`-th particle the top-up loop appends is born from draw `k + j`. */
  lemma {:induction false} TopUpNewborns(ps: seq<Particles.Particle>, cap: nat, paint: Paint, now: real,
                                         rng: nat -> Particles.BirthDraws, k: nat, j: nat)
    requires |ps| + j < cap
    ensures TopUp(ps, cap, paint, now, rng, k)[|ps| + j] == Particles.Birth(paint, rng(k + j), now)
    decreases cap - |ps|
  {
    var ps' := ps + [Particles.Birth(paint, rng(k), now)];
    var r := TopUp(ps', cap, paint, now, rng, k + 1);
    assert TopUp(ps, cap, paint, now, rng, k) == r;
    if j == 0 {
      assert r[|ps|] == r[..|ps'|][|ps|] == ps'[|ps|];
    } else {
      TopUpNewborns(ps', cap, paint, now, rng, k + 1, j - 1);
    }
  }

  /** Every particle advanced by one tick, in place. */
  function AdvanceAll(ps: seq<Particles.Particle>, now: real): (r: seq<Particles.Particle>)
    ensures |r| == |ps|
    ensures forall i :: 0 <= i < |ps| ==> r[i] == Particles.Update(ps[i], now)
  {
    seq(|ps|, i requires 0 <= i < |ps| => Particles.Update(ps[i], now))
  }

  /** The live particles, in their original order. */
  function Survivors(ps: seq<Particles.Particle>): (r: seq<Particles.Particle>)
    ensures |r| <= |ps|
    ensures forall q :: q in r <==> q in ps && q.isAlive
    // every copy of a live particle is kept, and no copy of a dead one
    ensures forall q :: multiset(r)[q] == if q.isAlive then multiset(ps)[q] else 0
    ensures |r| == |ps| <==> forall i :: 0 <= i < |ps| ==> ps[i].isAlive
  {
    if |ps| == 0 then []
    else
      var rest := Survivors(ps[1..]);
      assert ps == [ps[0]] + ps[1..];
      assert forall i :: 1 <= i < |ps| ==> ps[1..][i - 1] == ps[i];
      if ps[0].isAlive then [ps[0]] + rest else rest
  }

  /** The order-keeping filter of `s` by `keep`, as JavaScript's `Array.prototype.filter`. */
  function Filter<T>(s: seq<T>, keep: T -> bool): seq<T> {
    if |s| == 0 then [] else (if keep(s[0]) then [s[0]] else []) + Filter(s[1..], keep)
  }

  /** Filtering a concatenation filters each part and keeps them in order. */
  lemma {:induction false} FilterAppend<T>(a: seq<T>, b: seq<T>, keep: T -> bool)
    ensures Filter(a + b, keep) == Filter(a, keep) + Filter(b, keep)
  {
    if |a| == 0 {
      assert a + b == b;
    } else {
      assert (a + b)[1..] == a[1..] + b;
      FilterAppend(a[1..], b, keep);
    }
  }

  /** The liveness test the emitter filters by. */
  const IsAlive: Particles.Particle -> bool := (q: Particles.Particle) => q.isAlive

  /** `Survivors` is the order-keeping filter by liveness. */
  lemma {:induction false} SurvivorsIsFilter(ps: seq<Particles.Particle>)
    ensures Survivors(ps) == Filter(ps, IsAlive)
  {
    if |ps| > 0 {
      SurvivorsIsFilter(ps[1..]);
    }
  }

  /** The survivors of a concatenation are those of each part, in order. */
  lemma SurvivorsInOrder(a: seq<Particles.Particle>, b: seq<Particles.Particle>)
    ensures Survivors(a + b) == Survivors(a) + Survivors(b)
  {
    SurvivorsIsFilter(a + b);
    SurvivorsIsFilter(a);
    SurvivorsIsFilter(b);
    FilterAppend(a, b, IsAlive);
  }

  /** The population just before the per-particle update: old particles, then newborns. */
  function Populated(e: Emitter, now: real, rng: nat -> Particles.BirthDraws, k: nat): seq<Particles.Particle> {
    TopUp(e.particles, e.maxParticleCount, e.paint, now, rng, k)
  }

  /** One emitter update at clock reading `now`, drawing births from `rng` at `k`. */
  function Update(e: Emitter, now: real, rng: nat -> Particles.BirthDraws, k: nat): (r: Emitter)
    ensures r.(particles := e.particles) == e
    ensures forall q :: q in r.particles ==> q.isAlive
    ensures |r.particles| <= |e.particles| + Births(e)
    ensures |e.particles| <= e.maxParticleCount ==> |r.particles| <= e.maxParticleCount
    ensures Valid(e) ==> Valid(r)
  {
    e.(particles := Survivors(AdvanceAll(Populated(e, now, rng, k), now)))
  }

  /** The population is full after an update exactly when no particle died in it. */
  lemma FullIffNoDeaths(e: Emitter, now: real, rng: nat -> Particles.BirthDraws, k: nat)
    requires |e.particles| <= e.maxParticleCount
    ensures |Update(e, now, rng, k).particles| == e.maxParticleCount <==>
              forall i :: 0 <= i < e.maxParticleCount ==>
                Particles.Update(Populated(e, now, rng, k)[i], now).isAlive
  {
  }

  /** A particle that survives its tick is kept, advanced. */
  lemma KeepsLiveParticles(e: Emitter, now: real, rng: nat -> Particles.BirthDraws, k: nat, i: nat)
    requires i < |e.particles|
    requires Particles.Update(e.particles[i], now).isAlive
    ensures Particles.Update(e.particles[i], now) in Update(e, now, rng, k).particles
  {
    var pop := Populated(e, now, rng, k);
    assert pop[i] == pop[..|e.particles|][i];
    assert AdvanceAll(pop, now)[i] == Particles.Update(e.particles[i], now);
  }

  /** Newborns survive their first tick, so the first update of a new emitter fills it. */
  lemma {:induction false} FirstUpdateFills(location: Point, tileId: TileId, mercatorPoint: Point, paint: Paint,
                                            now: real, rng: nat -> Particles.BirthDraws, k: nat)
    ensures |Update(Create(location, tileId, mercatorPoint, paint), now, rng, k).particles|
            == MaxParticleCount(paint)
  {
    var e := Create(location, tileId, mercatorPoint, paint);
    var pop := Populated(e, now, rng, k);
    forall i | 0 <= i < |pop|
      ensures Particles.Update(pop[i], now).isAlive
    {
      TopUpNewborns([], e.maxParticleCount, paint, now, rng, k, i);
      Particles.NewbornSurvivesFirstTick(paint, rng(k + i), now);
    }
    FullIffNoDeaths(e, now, rng, k);
  }

  /** Every particle left after an update is the advanced form of one in the topped-up population. */
  lemma Origin(e: Emitter, now: real, rng: nat -> Particles.BirthDraws, k: nat, q: Particles.Particle)
    returns (i: nat)
    requires q in Update(e, now, rng, k).particles
    ensures i < |Populated(e, now, rng, k)|
    ensures q == Particles.Update(Populated(e, now, rng, k)[i], now)
  {
    var advanced := AdvanceAll(Populated(e, now, rng, k), now);
    assert q in advanced;
    i :| 0 <= i < |advanced| && advanced[i] == q;
  }

  /** Every particle of a new cloud emitter is scaled within [10, 30] after its first update. */
  lemma FirstCloudScales(location: Point, tileId: TileId, mercatorPoint: Point, paint: Paint,
                         now: real, rng: nat -> Particles.BirthDraws, k: nat)
    requires IsCloud(paint)
    requires forall j :: Particles.ValidDraws(rng(j))
    ensures forall q :: q in Update(Create(location, tileId, mercatorPoint, paint), now, rng, k).particles ==>
              10.0 <= q.scale <= 30.0
  {
    var e := Create(location, tileId, mercatorPoint, paint);
    forall q | q in Update(e, now, rng, k).particles
      ensures 10.0 <= q.scale <= 30.0
    {
      var i := Origin(e, now, rng, k, q);
      TopUpNewborns([], e.maxParticleCount, paint, now, rng, k, i);
      Particles.CloudNewbornScale(paint, rng(k + i), now);
    }
  }

  /**
   A new cloud emitter holds exactly 100 particles after its first update,
   each scaled within [10, 30].
   */
  lemma FirstCloudUpdate(location: Point, tileId: TileId, mercatorPoint: Point, paint: Paint,
                         now: real, rng: nat -> Particles.BirthDraws, k: nat)
    requires IsCloud(paint)
    requires forall j :: Particles.ValidDraws(rng(j))
    ensures var r := Update(Create(location, tileId, mercatorPoint, paint), now, rng, k);
            && |r.particles| == 100
            && forall q :: q in r.particles ==> 10.0 <= q.scale <= 30.0
  {
    FirstUpdateFills(location, tileId, mercatorPoint, paint, now, rng, k);
    FirstCloudScales(location, tileId, mercatorPoint, paint, now, rng, k);
  }
}
