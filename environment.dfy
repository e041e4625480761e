/** The narrow interfaces through which the acoustic code sees the world: the physics ray
    query (with its probe and path filters already applied) and the per-entity absorption
    data together with each entity's distance to the listener. */
module Environment {
  import opened Vectors

  type EntityUid = nat

  /** One hit of a ray query: the entity, the world point, and the surface normal
      (supplied already transformed to world space). */
  datatype RayHit = RayHit(entity: EntityUid, point: Vec2, normal: Vec2)

  /** The hits of one ray query, ordered from closest to farthest. */
  datatype RayResult = RayResult(results: seq<RayHit>)
  {
    predicate Hit() { |results| > 0 }
  }

  /** RayCastSystem.CastRay on the ray's map: `probe(origin, translation)` answers with the
      reflective entities along the segment (probe filter), `path(origin, translation)` with the
      absorbing entities along it (path filter). */
  datatype SpatialQuery = SpatialQuery(
    probe: (Vec2, Vec2) -> RayResult,
    path: (Vec2, Vec2) -> RayResult)

  /** AcousticDataComponent / AudioAbsorptionComponent: an absorption coefficient and whether
      rays bounce off the entity. */
  datatype AbsorptionData = AbsorptionData(absorption: real, reflectRay: bool)

  /** The entity store as seen from one listener: the absorption component of an entity, if it
      has one, and the distance from the entity to the listener (TryDistance; a failed lookup
      leaves its out value at 0). */
  datatype Surroundings = Surroundings(
    component: EntityUid -> Option<AbsorptionData>,
    distanceToListener: EntityUid -> real)

  /** What the aggregators need to know about the listener entity: whether it is valid and has a
      transform, whether the tile under it resolves and is space, its map position, and whether
      the roof check reports its tile uncovered (grid, roof and grid components present, tile
      position found, and not rooved). */
  datatype Listener = Listener(
    valid: bool,
    hasTransform: bool,
    tileResolved: bool,
    onSpaceTile: bool,
    position: Vec2,
    unroofed: bool)
  {
    /** The all-or-nothing preconditions of a sampling pass. */
    predicate CanSample() { valid && hasTransform && tileResolved && !onSpaceTile }
  }
}
