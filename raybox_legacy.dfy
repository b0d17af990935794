/**
 * The older ray-box intersector of RayBox.cpp (`RayBox`, over Orbiter's
 * VECTOR3). It shares the classification, distance and plane-choice loops of
 * src/raybox.cpp, including the precedence defect in `maxT`, but its
 * validation loop has the braces the newer copy lost: it rejects a hit
 * coordinate outside its slab and accepts when every unchosen axis passes.
 * Unlike the newer copy it never sets the found-flag in `intersect`, and it
 * writes the cached coordinate only when the origin is in the box.
 */
module RayBoxLegacy {
  import opened Vectors
  import opened Slab

  /** Every axis other than w has its hit coordinate, at parameter t, in its slab. */
  ghost predicate UnchosenInSlab(b: Box, r: Ray, w: nat, t: real)
  {
    forall i :: 0 <= i < 3 && i != w ==> InSlab(b, Along(r, t, i), i)
  }

  /** What `RayBox::intersect` of RayBox.cpp reports for box b and ray r. */
  ghost predicate LegacyHit(b: Box, r: Ray)
  {
    || Inside(b, r.origin)
    || (MaxT(b, r, Chosen(b, r)) >= 0.0 && UnchosenInSlab(b, r, Chosen(b, r), MaxT(b, r, Chosen(b, r))))
  }

  /**
   * The validation loop of RayBox.cpp: the local `hitCoord` is filled axis by
   * axis and never leaves the function, so only the verdict matters. It is
   * false as soon as an unchosen axis falls outside its slab.
   */
  method CheckCandidate(b: Box, r: Ray, maxT: array<real>, whichPlane: nat, candidatePlane: array<real>)
    returns (result: bool)
    requires maxT.Length == 3 && candidatePlane.Length == 3 && whichPlane < 3
    ensures result <==> UnchosenInSlab(b, r, whichPlane, maxT[whichPlane])
  {
    var hitCoord := Zero;
    for i := 0 to 3
      invariant forall k :: 0 <= k < i && k != whichPlane ==> InSlab(b, Along(r, maxT[whichPlane], k), k)
    {
      if whichPlane != i {
        hitCoord := hitCoord.With(i, r.origin.At(i) + maxT[whichPlane] * r.direction.At(i));
        assert hitCoord.At(i) == Along(r, maxT[whichPlane], i);
        if hitCoord.At(i) < b.centre.At(i) - b.width / 2.0 || hitCoord.At(i) > b.centre.At(i) + b.width / 2.0 {
          return false;
        }
      } else {
        hitCoord := hitCoord.With(i, candidatePlane[i]);
      }
    }
    return true;
  }

  class RayBox {
    var box1: Box
    var collisionCoord: Vec3
    var isCoordFound: bool
    var vesselRay: Ray

    /**
     * `RayBox(centrePos, radius)`: the box is centred on the obstacle, width
     * and height twice its radius; the flag starts false (its in-class
     * initialiser in RayBox.h). The coordinate and the ray are left
     * uninitialised by the source, so nothing is promised about them.
     */
    constructor (centrePos: Vec3, radius: real)
      ensures box1 == Box(centrePos, radius * 2.0, radius * 2.0)
      ensures !isCoordFound
    {
      box1 := Box(centrePos, radius * 2.0, radius * 2.0);
      collisionCoord := Zero;
      vesselRay := Ray(Zero, Zero);
      isCoordFound := false;
    }

    /** `~RayBox`: resets the found-flag and nothing else. */
    method Destroy()
      modifies this
      ensures !isCoordFound
      ensures box1 == old(box1) && collisionCoord == old(collisionCoord) && vesselRay == old(vesselRay)
    {
      isCoordFound := false;
    }

    /**
     * `RayBox::intersect` of RayBox.cpp. The only write to the object is the
     * origin stored as the coordinate when the origin is in the box; the
     * found-flag is never touched.
     */
    method Intersect(ray1: Ray) returns (result: bool)
      modifies this
      ensures result == LegacyHit(box1, ray1)
      ensures box1 == old(box1) && vesselRay == old(vesselRay) && isCoordFound == old(isCoordFound)
      ensures collisionCoord == if Inside(box1, ray1.origin) then ray1.origin else old(collisionCoord)
    {
      // Find candidate planes
      var quadrant, candidatePlane, inside := CandidatePlanes(box1, ray1.origin);

      // Ray origin inside bounding box
      if inside {
        collisionCoord := ray1.origin;
        return true;
      }

      // Calculate T distances to candidate planes
      var maxT := Distances(ray1, quadrant, candidatePlane);
      assert maxT[..] == MaxTs(box1, ray1);

      // Get largest of the maxT's for final choice of intersection
      var whichPlane := ChoosePlane(maxT);

      // Check final candidate actually inside box
      if maxT[whichPlane] < 0.0 {
        return false;
      }
      assert maxT[whichPlane] == MaxT(box1, ray1, Chosen(box1, ray1));
      result := CheckCandidate(box1, ray1, maxT, whichPlane, candidatePlane);
    }

    /**
     * Two `intersect` calls with the same ray give the same verdict and leave
     * the object as one call does: the verdict reads only the box and the
     * ray, and the only write is idempotent.
     */
    method IntersectTwice(ray1: Ray) returns (first: bool, second: bool)
      modifies this
      ensures first == second == LegacyHit(box1, ray1)
      ensures box1 == old(box1) && vesselRay == old(vesselRay) && isCoordFound == old(isCoordFound)
      ensures collisionCoord == if Inside(box1, ray1.origin) then ray1.origin else old(collisionCoord)
    {
      first := Intersect(ray1);
      second := Intersect(ray1);
    }

    /**
     * `RayBox::findCollisionCoord` of RayBox.cpp, the same computation as in
     * src/raybox.cpp: `staleQuadrant` and `stalePlane` stand for the
     * uninitialised local arrays on the axes its classification loop does
     * not write. Its leading `getCollisionCoord` call and the final copy into
     * the by-value `impactCoord` have no effect a caller can see.
     */
    method FindCollisionCoord(ray1: Ray, staleQuadrant: seq<Quadrant>, stalePlane: seq<real>)
      requires |staleQuadrant| == 3 && |stalePlane| == 3
      modifies this
      ensures box1 == old(box1) && vesselRay == old(vesselRay)
      ensures isCoordFound
      ensures collisionCoord == FoundCoord(box1, ray1, staleQuadrant, stalePlane)
    {
      // Find candidate planes
      var quadrant, candidatePlane := FindCandidatePlanes(box1, ray1.origin, staleQuadrant, stalePlane);

      // Calculate T distances to candidate planes
      var maxT := Distances(ray1, quadrant, candidatePlane);
      assert maxT[..] == FindMaxTs(box1, ray1, staleQuadrant, stalePlane);

      // Get largest of the maxT's for final choice of intersection
      var whichPlane := ChoosePlane(maxT);

      ghost var m := FindMaxTs(box1, ray1, staleQuadrant, stalePlane);
      assert whichPlane == FirstMax(m) && maxT[whichPlane] == m[whichPlane];
      assert candidatePlane[..] == FindPlanes(box1, ray1.origin, stalePlane);
      collisionCoord := Land(ray1, maxT, whichPlane, candidatePlane, collisionCoord);
      isCoordFound := true;
    }

    /**
     * `RayBox::getCollisionCoord`: copies the cached coordinate into its
     * by-value parameter when the flag is set and returns early otherwise.
     * `impact` is that parameter's final value; the object is not changed.
     */
    method GetCollisionCoord(impactCoord: Vec3) returns (impact: Vec3)
      ensures !isCoordFound ==> impact == impactCoord
      ensures isCoordFound ==> impact == collisionCoord
    {
      if !isCoordFound {
        return impactCoord;
      }
      impact := collisionCoord;
    }
  }

  /** An origin in the closed box, faces included, is always a hit. */
  lemma InsideIsHit(b: Box, r: Ray)
    requires InBox(b, r.origin)
    ensures LegacyHit(b, r)
  {
    InsideIffInBox(b, r.origin);
  }

  /** A negative chosen distance for an outside origin is never a hit. */
  lemma BehindIsMiss(b: Box, r: Ray)
    requires !InBox(b, r.origin) && MaxT(b, r, Chosen(b, r)) < 0.0
    ensures !LegacyHit(b, r)
  {
    InsideIffInBox(b, r.origin);
  }

  /**
   * For an outside origin with non-negative chosen distance the verdict is
   * exactly whether every unchosen axis's hit coordinate lies in the closed
   * interval [centre - width/2, centre + width/2].
   */
  lemma OutsideHitIffUnchosenInSlab(b: Box, r: Ray)
    requires !InBox(b, r.origin) && MaxT(b, r, Chosen(b, r)) >= 0.0
    ensures LegacyHit(b, r) <==>
      forall i :: 0 <= i < 3 && i != Chosen(b, r) ==>
        Low(b, i) <= HitAt(b, r, Chosen(b, r), i) <= High(b, i)
  {
    InsideIffInBox(b, r.origin);
  }
}
