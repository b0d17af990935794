/**
 * The software ray-box intersector of src/raybox.cpp (`RayBox`). An object
 * holds the bounding box of one obstacle, the ray it is tested against and a
 * cache of the last collision coordinate with its found-flag.
 *
 * `intersect` is modelled as written, including two defects: the candidate
 * distance is `candidatePlane - origin / direction` (operator precedence),
 * and the validation loop lacks braces, so that the flag is cleared and
 * `false` returned at the first axis that is not the chosen plane. The
 * consequence, proved below, is that this intersector reports a hit exactly
 * when the ray origin lies in the closed box.
 */
module RayBoxSoftware {
  import opened Vectors
  import opened Slab

  /** The cached coordinate and its flag. */
  datatype Cache = Cache(collisionCoord: Vec3, isCoordFound: bool)

  /** What one `intersect` call returns and leaves in the cache. */
  datatype Outcome = Outcome(hit: bool, cache: Cache)

  /** The axis at which the validation loop stops: the first one that is not the chosen plane. */
  function FirstUnchosen(w: nat): (f: nat)
    requires w < 3
    ensures f < 3 && f != w
    ensures w == 0 <==> f == 1
  {
    if w == 0 then 1 else 0
  }

  /**
   * The local `hitCoord` when the validation loop stops, for chosen plane w
   * with distance t: the uninitialised vector `stale` with the components
   * the loop wrote before stopping (the face on axis 0 when w is 0, then the
   * hit coordinate on the first unchosen axis).
   */
  function PartialHit(b: Box, r: Ray, w: nat, t: real, stale: Vec3): (h: Vec3)
    requires w < 3 && (w == 0 ==> Classify(b, r.origin, 0) != Middle)
    ensures h.At(FirstUnchosen(w)) == Along(r, t, FirstUnchosen(w))
    ensures w == 0 ==> h == Vec3(Plane(b, r.origin, 0), Along(r, t, 1), stale.z)
    ensures w != 0 ==> h == stale.With(0, Along(r, t, 0))
  {
    var f := FirstUnchosen(w);
    var written := if w == 0 then stale.With(0, Plane(b, r.origin, 0)) else stale;
    written.With(f, Along(r, t, f))
  }

  /**
   * What the validation loop leaves behind for chosen plane w with distance
   * t: the flag is cleared, and the coordinate is overwritten by the partial
   * `hitCoord` only when the first unchosen hit coordinate lies outside its slab.
   */
  function StopOutcome(b: Box, r: Ray, w: nat, t: real, stale: Vec3, before: Cache): Outcome
    requires w < 3 && (w == 0 ==> Classify(b, r.origin, 0) != Middle)
  {
    var f := FirstUnchosen(w);
    var coord := if InSlab(b, Along(r, t, f), f) then before.collisionCoord
                 else PartialHit(b, r, w, t, stale);
    Outcome(false, Cache(coord, false))
  }

  /**
   * The effect of `RayBox::intersect` (src/raybox.cpp) as written, from the
   * box, the ray, the uninitialised content of the local `hitCoord`, and the
   * cache before the call.
   */
  ghost function IntersectEffect(b: Box, r: Ray, stale: Vec3, before: Cache): Outcome
  {
    if Inside(b, r.origin) then Outcome(true, Cache(r.origin, true))
    else if MaxT(b, r, Chosen(b, r)) < 0.0 then Outcome(false, before)
    else
      ChosenNonNegativeIsFace(b, r);
      StopOutcome(b, r, Chosen(b, r), MaxT(b, r, Chosen(b, r)), stale, before)
  }

  class RayBox {
    var box1: Box
    var collisionCoord: Vec3
    var isCoordFound: bool
    var vesselRay: Ray

    /**
     * `RayBox(centrePos, radius)`: a box centred on the obstacle whose width
     * and height are twice its radius; the flag starts false (its in-class
     * initialiser). The cached coordinate and the ray are left uninitialised
     * by the source, so nothing is promised about them.
     */
    constructor (centrePos: Vec3, radius: real)
      ensures box1 == Box(centrePos, radius * 2.0, radius * 2.0)
      ensures !isCoordFound
    {
      box1 := Box(centrePos, radius * 2.0, radius * 2.0);
      collisionCoord := Zero;
      vesselRay := Ray(Zero, Zero);
      isCoordFound := false;
    }

    /** `~RayBox`: resets the found-flag and nothing else. */
    method Destroy()
      modifies this
      ensures !isCoordFound
      ensures box1 == old(box1) && collisionCoord == old(collisionCoord) && vesselRay == old(vesselRay)
    {
      isCoordFound := false;
    }

    /**
     * `RayBox::intersect`. `staleHit` stands for the uninitialised content of
     * the local `hitCoord`, which reaches the cache on one path.
     */
    method Intersect(ray1: Ray, staleHit: Vec3) returns (result: bool)
      modifies this
      ensures box1 == old(box1) && vesselRay == old(vesselRay)
      ensures Outcome(result, Cache(collisionCoord, isCoordFound))
              == IntersectEffect(box1, ray1, staleHit, old(Cache(collisionCoord, isCoordFound)))
    {
      // Find candidate planes
      var quadrant, candidatePlane, inside := CandidatePlanes(box1, ray1.origin);

      // Ray origin inside bounding box
      if inside {
        collisionCoord := ray1.origin;
        isCoordFound := true;
        return isCoordFound;
      }

      // Calculate T distances to candidate planes
      var maxT := Distances(ray1, quadrant, candidatePlane);
      assert maxT[..] == MaxTs(box1, ray1);

      // Get largest of the maxT's for final choice of intersection
      var whichPlane := ChoosePlane(maxT);

      // Check final candidate actually inside box
      if maxT[whichPlane] < 0.0 {
        return false;
      }
      ChosenNonNegativeIsFace(box1, ray1);
      assert maxT[whichPlane] == MaxT(box1, ray1, whichPlane);
      result := Validate(ray1, maxT, whichPlane, candidatePlane, staleHit);
    }

    /**
     * The validation loop of `intersect`, entered once the chosen `maxT` is
     * known to be non-negative: it stops at the first axis that is not the
     * chosen plane.
     */
    method Validate(ray1: Ray, maxT: array<real>, whichPlane: nat, candidatePlane: array<real>, staleHit: Vec3)
      returns (result: bool)
      requires maxT.Length == 3 && candidatePlane.Length == 3
      requires whichPlane < 3 && maxT[whichPlane] >= 0.0
      requires Classify(box1, ray1.origin, whichPlane) != Middle
      requires candidatePlane[whichPlane] == Plane(box1, ray1.origin, whichPlane)
      modifies this
      ensures box1 == old(box1) && vesselRay == old(vesselRay)
      ensures Outcome(result, Cache(collisionCoord, isCoordFound))
              == StopOutcome(box1, ray1, whichPlane, maxT[whichPlane], staleHit, old(Cache(collisionCoord, isCoordFound)))
    {
      var hitCoord := staleHit;
      for i := 0 to 3
        invariant i == 0 || (i == 1 && whichPlane == 0)
        invariant i == 0 ==> hitCoord == staleHit
        invariant i == 1 ==> hitCoord == staleHit.With(0, Plane(box1, ray1.origin, 0))
      {
        if whichPlane != i {
          hitCoord := hitCoord.With(i, ray1.origin.At(i) + maxT[whichPlane] * ray1.direction.At(i));
          assert hitCoord == PartialHit(box1, ray1, whichPlane, maxT[whichPlane], staleHit);
          if hitCoord.At(i) < box1.centre.At(i) - box1.width / 2.0 || hitCoord.At(i) > box1.centre.At(i) + box1.width / 2.0 {
            collisionCoord := hitCoord;
          }
          // Without braces these two statements follow the `if` unconditionally.
          isCoordFound := false;
          return isCoordFound;
        } else {
          hitCoord := hitCoord.With(i, candidatePlane[i]);
        }
      }
      // The source's final `collisionCoord = hitCoord; isCoordFound = true;
      // return isCoordFound;` is unreachable: the loop returns at its first
      // or second iteration.
      assert false;
    }

    /**
     * `RayBox::findCollisionCoord`. Its classification loop has no MIDDLE
     * branch, so `staleQuadrant` and `stalePlane` stand for the uninitialised
     * local arrays `quadrant` and `candidatePlane` on the axes it does not
     * write. The `impactCoord` parameter is passed by value in the source;
     * the assignment to it is invisible to the caller and is not modelled.
     */
    method FindCollisionCoord(ray1: Ray, staleQuadrant: seq<Quadrant>, stalePlane: seq<real>)
      requires |staleQuadrant| == 3 && |stalePlane| == 3
      modifies this
      ensures box1 == old(box1) && vesselRay == old(vesselRay)
      ensures isCoordFound
      ensures collisionCoord == FoundCoord(box1, ray1, staleQuadrant, stalePlane)
    {
      // Find candidate planes
      var quadrant, candidatePlane := FindCandidatePlanes(box1, ray1.origin, staleQuadrant, stalePlane);

      // Calculate T distances to candidate planes
      var maxT := Distances(ray1, quadrant, candidatePlane);
      assert maxT[..] == FindMaxTs(box1, ray1, staleQuadrant, stalePlane);

      // Get largest of the maxT's for final choice of intersection
      var whichPlane := ChoosePlane(maxT);

      ghost var m := FindMaxTs(box1, ray1, staleQuadrant, stalePlane);
      assert whichPlane == FirstMax(m) && maxT[whichPlane] == m[whichPlane];
      assert candidatePlane[..] == FindPlanes(box1, ray1.origin, stalePlane);
      collisionCoord := Land(ray1, maxT, whichPlane, candidatePlane, collisionCoord);
      isCoordFound := true;
    }

    /**
     * `RayBox::getCollisionCoord`: copies the cached coordinate into its
     * by-value parameter when the flag is set and returns early otherwise.
     * `impact` is that parameter's final value; the object is not changed,
     * and the caller's vector is not either, since it was copied.
     */
    method GetCollisionCoord(impactCoord: Vec3) returns (impact: Vec3)
      ensures !isCoordFound ==> impact == impactCoord
      ensures isCoordFound ==> impact == collisionCoord
    {
      if !isCoordFound {
        return impactCoord;
      }
      impact := collisionCoord;
    }
  }

  /** `intersect` reports a hit exactly when the ray origin is in the closed box, faces included. */
  lemma HitIffOriginInBox(b: Box, r: Ray, stale: Vec3, before: Cache)
    ensures IntersectEffect(b, r, stale, before).hit <==> InBox(b, r.origin)
  {
    InsideIffInBox(b, r.origin);
  }

  /** An origin in the box caches the origin itself and sets the flag. */
  lemma InsideCachesOrigin(b: Box, r: Ray, stale: Vec3, before: Cache)
    requires InBox(b, r.origin)
    ensures IntersectEffect(b, r, stale, before) == Outcome(true, Cache(r.origin, true))
  {
    InsideIffInBox(b, r.origin);
  }

  /** For an outside origin whose chosen `maxT` is negative the cache is untouched. */
  lemma BehindKeepsCache(b: Box, r: Ray, stale: Vec3, before: Cache)
    requires !InBox(b, r.origin) && MaxT(b, r, Chosen(b, r)) < 0.0
    ensures IntersectEffect(b, r, stale, before) == Outcome(false, before)
  {
    InsideIffInBox(b, r.origin);
  }

  /**
   * The validation loop always clears the flag; it keeps the coordinate when
   * the tested hit lies in its slab and stores the partial `hitCoord` otherwise.
   */
  lemma StopOutcomeClears(b: Box, r: Ray, w: nat, t: real, stale: Vec3, before: Cache)
    requires w < 3 && (w == 0 ==> Classify(b, r.origin, 0) != Middle)
    ensures var e := StopOutcome(b, r, w, t, stale, before);
            var f := FirstUnchosen(w);
            && !e.hit && !e.cache.isCoordFound
            && (InSlab(b, Along(r, t, f), f) ==> e.cache.collisionCoord == before.collisionCoord)
            && (!InSlab(b, Along(r, t, f), f) ==> e.cache.collisionCoord == PartialHit(b, r, w, t, stale))
  {
  }

  /** Running the validation loop again on its own result changes nothing. */
  lemma StopOutcomeIdempotent(b: Box, r: Ray, w: nat, t: real, stale: Vec3, before: Cache)
    requires w < 3 && (w == 0 ==> Classify(b, r.origin, 0) != Middle)
    ensures var first := StopOutcome(b, r, w, t, stale, before);
            StopOutcome(b, r, w, t, stale, first.cache) == first
  {
  }

  /** Past the behind-the-ray test, `intersect` ends in its validation loop. */
  lemma ReachesValidation(b: Box, r: Ray, stale: Vec3, before: Cache)
    requires !Inside(b, r.origin) && MaxT(b, r, Chosen(b, r)) >= 0.0
    ensures Classify(b, r.origin, Chosen(b, r)) != Middle
    ensures IntersectEffect(b, r, stale, before) == StopOutcome(b, r, Chosen(b, r), MaxT(b, r, Chosen(b, r)), stale, before)
  {
    ChosenNonNegativeIsFace(b, r);
  }

  /**
   * For an outside origin with a non-negative chosen `maxT` the flag is
   * cleared, and the coordinate is overwritten, by the partial `hitCoord`,
   * only when the first non-chosen hit coordinate falls outside its slab.
   */
  lemma OutsideClearsFlag(b: Box, r: Ray, stale: Vec3, before: Cache)
    requires !InBox(b, r.origin) && MaxT(b, r, Chosen(b, r)) >= 0.0
    ensures Classify(b, r.origin, Chosen(b, r)) != Middle
    ensures var e := IntersectEffect(b, r, stale, before);
            var f := FirstUnchosen(Chosen(b, r));
            && !e.hit && !e.cache.isCoordFound
            && (InSlab(b, HitAt(b, r, Chosen(b, r), f), f) ==> e.cache.collisionCoord == before.collisionCoord)
            && (!InSlab(b, HitAt(b, r, Chosen(b, r), f), f) ==>
                  e.cache.collisionCoord == PartialHit(b, r, Chosen(b, r), MaxT(b, r, Chosen(b, r)), stale))
  {
    InsideIffInBox(b, r.origin);
    ReachesValidation(b, r, stale, before);
    StopOutcomeClears(b, r, Chosen(b, r), MaxT(b, r, Chosen(b, r)), stale, before);
  }

  /**
   * Repeating `intersect` with the same ray gives the same answer, and, when
   * the uninitialised `hitCoord` holds the same bits, the same cache.
   */
  lemma {:induction false} IntersectIdempotent(b: Box, r: Ray, stale: Vec3, before: Cache)
    ensures var first := IntersectEffect(b, r, stale, before);
            IntersectEffect(b, r, stale, first.cache) == first
  {
    if !Inside(b, r.origin) && MaxT(b, r, Chosen(b, r)) >= 0.0 {
      ReachesValidation(b, r, stale, before);
      StopOutcomeIdempotent(b, r, Chosen(b, r), MaxT(b, r, Chosen(b, r)), stale, before);
    }
  }

  /**
   * `findCollisionCoord` after a hit of this intersector: since a hit means
   * the origin is in the box, no axis is classified, and every quadrant and
   * candidate plane it reads is the uninitialised content of its locals.
   */
  lemma FindAfterHitReadsOnlyStale(b: Box, r: Ray, stale: Vec3, before: Cache,
                                   staleQuadrant: seq<Quadrant>, stalePlane: seq<real>)
    requires |staleQuadrant| == 3 && |stalePlane| == 3
    requires IntersectEffect(b, r, stale, before).hit
    ensures forall i :: 0 <= i < 3 ==>
      FindQuadrant(b, r.origin, staleQuadrant, i) == staleQuadrant[i] &&
      FindPlane(b, r.origin, stalePlane, i) == stalePlane[i]
  {
    assert Inside(b, r.origin);
    forall i | 0 <= i < 3
      ensures FindQuadrant(b, r.origin, staleQuadrant, i) == staleQuadrant[i]
      ensures FindPlane(b, r.origin, stalePlane, i) == stalePlane[i]
    {
      ClassifyMeaning(b, r.origin, i);
    }
  }
}
