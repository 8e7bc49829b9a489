/**
 The evaluated paint properties a particle emitter reads. The live style
 object of the map is replaced by an immutable snapshot taken when the
 emitter is registered.
 */
module Style {
  import opened Geometry
  import opened Wrappers

  /**
   One paint record. A numeric or colour property is `Some(v)` when it
   evaluated to the constant `v` and `None` otherwise; readers fall back to a
   default of their own choosing (`ConstantOr`).
   */
  datatype Paint = Paint(
    emitterType: string,            // particle-emitter-type
    offsetMin: Option<real>,        // particle-emitter-offset-min
    offsetMax: Option<real>,        // particle-emitter-offset-max
    elevationMin: Option<real>,     // particle-emitter-elevation-min
    elevationMax: Option<real>,     // particle-emitter-elevation-max
    direction: Vec3,                // particle-emitter-direction
    velocityMin: Option<real>,      // particle-emitter-velocity-min
    velocityMax: Option<real>,      // particle-emitter-velocity-max
    ttlMin: Option<real>,           // particle-emitter-ttl-min
    ttlMax: Option<real>,           // particle-emitter-ttl-max
    colorStart: Option<Rgba>,       // particle-color-start
    colorEnd: Option<Rgba>          // particle-color-end
  )

  /** The property's constant value, or `default` when it has none. */
  function ConstantOr<T>(v: Option<T>, default: T): T {
    match v
    case Some(c) => c
    case None => default
  }

  const CloudType: string := "cloud"

  /** The emitter type that selects the cloud population cap and scale range. */
  predicate IsCloud(paint: Paint) {
    paint.emitterType == CloudType
  }

  const CloudParticleCount: nat := 100
  const DefaultParticleCount: nat := 250

  /** The population cap an emitter derives once from its paint. */
  function MaxParticleCount(paint: Paint): nat {
    if IsCloud(paint) then CloudParticleCount else DefaultParticleCount
  }
}
