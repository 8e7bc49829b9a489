/**
 The particle system registry: the list of emitters, the throttled global
 update and the attach operation that deduplicates emitters by their
 mercator point. The process-wide instance of the source is an ordinary
 value here; every operation returns the new state.
 */
module Simulation {
  import opened Geometry
  import opened Wrappers
  import opened Style
  import Particles
  import Emitters

  datatype ParticleSystem = ParticleSystem(emitters: seq<Emitters.Emitter>, lastUpdate: real)

  /** Updates closer than this many milliseconds to the last accepted one are ignored. */
  const MinUpdateInterval: real := 10.0

  /** No two emitters share a mercator point. */
  predicate DistinctPoints(es: seq<Emitters.Emitter>) {
    forall i, j :: 0 <= i < j < |es| ==> es[i].mercatorPoint != es[j].mercatorPoint
  }

  /** The invariant the registry keeps: distinct points and every emitter within its cap. */
  predicate Valid(s: ParticleSystem) {
    && DistinctPoints(s.emitters)
    && forall i :: 0 <= i < |s.emitters| ==> Emitters.Valid(s.emitters[i])
  }

  /** `rs` is `es` with, at most, different particles in each emitter: same emitters, same order. */
  predicate OnlyParticlesChange(es: seq<Emitters.Emitter>, rs: seq<Emitters.Emitter>) {
    && |rs| == |es|
    && forall i :: 0 <= i < |es| ==> rs[i].(particles := es[i].particles) == es[i]
  }

  /** The stream positions the elements of `es` consume together. */
  function Total<T>(es: seq<T>, cost: T -> nat): nat {
    if |es| == 0 then 0 else cost(es[0]) + Total(es[1..], cost)
  }

  /**
   Applies `step` to each element in order, the `for ... of` loop over the
   emitters: each call starts at the stream position where the previous
   one stopped, `cost` of that element further on.
   */
  function Thread<T>(es: seq<T>, step: (T, nat) -> T, cost: T -> nat, k: nat): (rs: seq<T>)
    ensures |rs| == |es|
  {
    if |es| == 0 then [] else [step(es[0], k)] + Thread(es[1..], step, cost, k + cost(es[0]))
  }

  /** Element `i` is stepped at the position left by the elements before it. */
  lemma {:induction false} ThreadInOrder<T>(es: seq<T>, step: (T, nat) -> T, cost: T -> nat, k: nat, i: nat)
    requires i < |es|
    ensures Thread(es, step, cost, k)[i] == step(es[i], k + Total(es[..i], cost))
  {
    if i > 0 {
      ThreadInOrder(es[1..], step, cost, k + cost(es[0]), i - 1);
      assert es[..i][1..] == es[1..][..i - 1];
    } else {
      assert es[..0] == [];
    }
  }

  /** `ThreadInOrder` for a known result `v` of the step at element `i`. */
  lemma ThreadAt<T>(es: seq<T>, step: (T, nat) -> T, cost: T -> nat, i: nat, v: T)
    requires i < |es|
    requires step(es[i], Total(es[..i], cost)) == v
    ensures Thread(es, step, cost, 0)[i] == v
  {
    ThreadInOrder(es, step, cost, 0, i);
  }

  /** One emitter update as a step of `Thread`. */
  function Stepper(now: real, rng: nat -> Particles.BirthDraws): (Emitters.Emitter, nat) -> Emitters.Emitter {
    (e: Emitters.Emitter, j: nat) => Emitters.Update(e, now, rng, j)
  }

  /** Applying the stepper is one emitter update. */
  lemma StepperIsUpdate(now: real, rng: nat -> Particles.BirthDraws, e: Emitters.Emitter, j: nat)
    ensures Stepper(now, rng)(e, j) == Emitters.Update(e, now, rng, j)
  {
  }

  /** Every emitter updated once, in list order, births drawn from one shared stream. */
  function UpdateEach(es: seq<Emitters.Emitter>, now: real, rng: nat -> Particles.BirthDraws)
    : (rs: seq<Emitters.Emitter>)
    ensures OnlyParticlesChange(es, rs)
    ensures (forall i :: 0 <= i < |es| ==> Emitters.Valid(es[i])) ==>
              forall i :: 0 <= i < |rs| ==> Emitters.Valid(rs[i])
    ensures forall i :: 0 <= i < |es| ==>
              rs[i] == Emitters.Update(es[i], now, rng, Total(es[..i], Emitters.Births))
  {
    var step := Stepper(now, rng);
    var rs := Thread(es, step, Emitters.Births, 0);
    forall i | 0 <= i < |es|
      ensures rs[i].(particles := es[i].particles) == es[i]
      ensures Emitters.Valid(es[i]) ==> Emitters.Valid(rs[i])
      ensures rs[i] == Emitters.Update(es[i], now, rng, Total(es[..i], Emitters.Births))
    {
      var n := Total(es[..i], Emitters.Births);
      StepperIsUpdate(now, rng, es[i], n);
      ThreadAt(es, step, Emitters.Births, i, Emitters.Update(es[i], now, rng, n));
    }
    rs
  }

  /**
   The global tick at clock reading `now`: ignored when less than
   `MinUpdateInterval` has passed since the last accepted tick, otherwise
   recorded and forwarded to every emitter.
   */
  function Update(s: ParticleSystem, now: real, rng: nat -> Particles.BirthDraws): (r: ParticleSystem)
    ensures now - s.lastUpdate < MinUpdateInterval ==> r == s
    ensures now - s.lastUpdate >= MinUpdateInterval ==>
              r.lastUpdate == now && OnlyParticlesChange(s.emitters, r.emitters)
    // an accepted tick updates each emitter once, in list order
    ensures now - s.lastUpdate >= MinUpdateInterval ==>
              forall i :: 0 <= i < |s.emitters| ==>
                r.emitters[i] == Emitters.Update(s.emitters[i], now, rng, Total(s.emitters[..i], Emitters.Births))
    ensures Valid(s) ==> Valid(r)
  {
    if now - s.lastUpdate < MinUpdateInterval then s
    else ParticleSystem(UpdateEach(s.emitters, now, rng), now)
  }

  /** Two ticks closer than the minimum interval: the second one changes nothing. */
  lemma ThrottleAbsorbsCloseTick(s: ParticleSystem, t1: real, t2: real,
                                 rng1: nat -> Particles.BirthDraws, rng2: nat -> Particles.BirthDraws)
    requires t1 - s.lastUpdate >= MinUpdateInterval
    requires t2 - t1 < MinUpdateInterval
    ensures Update(Update(s, t1, rng1), t2, rng2) == Update(s, t1, rng1)
  {
  }

  /**
   The constructor: no emitters, the creation time as last update, then one
   update at the clock reading `now`.
   */
  function Create(created: real, now: real, rng: nat -> Particles.BirthDraws): (s: ParticleSystem)
    ensures s.emitters == []
    // the constructor's own tick is throttled exactly when it comes too soon
    ensures now - created < MinUpdateInterval ==> s.lastUpdate == created
    ensures now - created >= MinUpdateInterval ==> s.lastUpdate == now
    ensures Valid(s)
  {
    Update(ParticleSystem([], created), now, rng)
  }

  /** Some emitter sits at mercator point `p`. */
  predicate HasPoint(es: seq<Emitters.Emitter>, p: Point) {
    exists i :: 0 <= i < |es| && es[i].mercatorPoint == p
  }

  /** `i` is the first emitter at mercator point `p`. */
  predicate FirstAt(es: seq<Emitters.Emitter>, p: Point, i: int) {
    && 0 <= i < |es|
    && es[i].mercatorPoint == p
    && forall j :: 0 <= j < i ==> es[j].mercatorPoint != p
  }

  /** The linear scan for an emitter whose point equals `p` in both coordinates. */
  function FindEmitter(es: seq<Emitters.Emitter>, p: Point): (r: Option<nat>)
    ensures r.Some? ==> FirstAt(es, p, r.value)
    ensures r.None? <==> !HasPoint(es, p)
  {
    if |es| == 0 then None
    else if es[0].mercatorPoint.x == p.x && es[0].mercatorPoint.y == p.y then Some(0)
    else
      match FindEmitter(es[1..], p)
      case None =>
        assert forall i :: 1 <= i < |es| ==> es[1..][i - 1] == es[i];
        None
      case Some(i) =>
        assert es[1..][i] == es[i + 1];
        assert forall j :: 1 <= j < i + 1 ==> es[1..][j - 1] == es[j];
        Some(i + 1)
  }

  /**
   Attaches an emitter for a feature at mercator point `p`. Without a tile
   nothing happens; an emitter already at `p` only gets the new location and
   tile; otherwise a new emitter is appended.
   */
  function AddEmitter(s: ParticleSystem, location: Point, tileId: Option<TileId>, p: Point, paint: Paint)
    : (r: ParticleSystem)
    ensures r.lastUpdate == s.lastUpdate
    ensures tileId.None? ==> r == s
    ensures forall i {:trigger FirstAt(s.emitters, p, i)} :: tileId.Some? && FirstAt(s.emitters, p, i) ==>
              r.emitters == s.emitters[i := s.emitters[i].(location := location, tileId := tileId.value)]
    ensures tileId.Some? && !HasPoint(s.emitters, p) ==>
              r.emitters == s.emitters + [Emitters.Create(location, tileId.value, p, paint)]
  {
    match tileId
    case None => s
    case Some(tile) =>
      match FindEmitter(s.emitters, p)
      case Some(i) =>
        s.(emitters := s.emitters[i := s.emitters[i].(location := location, tileId := tile)])
      case None =>
        s.(emitters := s.emitters + [Emitters.Create(location, tile, p, paint)])
  }

  /** Attaching never makes two emitters share a point. */
  lemma AddEmitterKeepsPointsDistinct(s: ParticleSystem, location: Point, tileId: Option<TileId>, p: Point,
                                      paint: Paint)
    requires DistinctPoints(s.emitters)
    ensures DistinctPoints(AddEmitter(s, location, tileId, p, paint).emitters)
  {
    var r := AddEmitter(s, location, tileId, p, paint);
    if tileId.Some? && !HasPoint(s.emitters, p) {
      forall i, j | 0 <= i < j < |r.emitters|
        ensures r.emitters[i].mercatorPoint != r.emitters[j].mercatorPoint
      {
        if j == |s.emitters| {
          assert r.emitters[i] == s.emitters[i];
        }
      }
    }
  }

  /** Attaching keeps the registry invariant. */
  lemma AddEmitterKeepsValid(s: ParticleSystem, location: Point, tileId: Option<TileId>, p: Point, paint: Paint)
    requires Valid(s)
    ensures Valid(AddEmitter(s, location, tileId, p, paint))
  {
    AddEmitterKeepsPointsDistinct(s, location, tileId, p, paint);
  }

  /** Attaching the same emitter twice is the same as attaching it once. */
  lemma AddEmitterIdempotent(s: ParticleSystem, location: Point, tileId: Option<TileId>, p: Point, paint: Paint)
    ensures var once := AddEmitter(s, location, tileId, p, paint);
            AddEmitter(once, location, tileId, p, paint) == once
  {
    var once := AddEmitter(s, location, tileId, p, paint);
    if tileId.Some? {
      match FindEmitter(s.emitters, p)
      case Some(i) =>
        assert FirstAt(once.emitters, p, i);
      case None =>
        assert FirstAt(once.emitters, p, |s.emitters|);
    }
  }

  /**
   Re-attaching at a known point leaves the emitter count and every particle
   as they were; only the location and tile of the emitter at that point change.
   */
  lemma ReattachKeepsParticles(s: ParticleSystem, location: Point, tile: TileId, p: Point, paint: Paint)
    requires HasPoint(s.emitters, p)
    ensures var r := AddEmitter(s, location, Some(tile), p, paint);
            && |r.emitters| == |s.emitters|
            && (forall i :: 0 <= i < |s.emitters| ==> r.emitters[i].particles == s.emitters[i].particles)
            && (forall i :: 0 <= i < |s.emitters| && s.emitters[i].mercatorPoint != p ==>
                  r.emitters[i] == s.emitters[i])
  {
    var i :| 0 <= i < |s.emitters| && s.emitters[i].mercatorPoint == p;
    var f := FindEmitter(s.emitters, p);
    assert f.Some?;
  }
}
