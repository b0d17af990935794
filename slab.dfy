/**
 * The slab-method vocabulary shared by both ray-box intersectors
 * (src/raybox.cpp and the older RayBox.cpp): the box and ray records, the
 * per-axis classification of the ray origin, the candidate plane, the
 * parametric distances `maxT` exactly as the code computes them, and the
 * choice of the deciding plane.
 */
module Slab {
  import opened Vectors

  /** The classifications of raybox.h: BOUNDARY_RIGHT, BOUNDARY_LEFT, MIDDLE. */
  datatype Quadrant = BoundaryRight | BoundaryLeft | Middle

  /**
   * `struct Box`: a cube approximating a sphere. Only `width` is ever used,
   * on all three axes; `height` is stored and never read.
   */
  datatype Box = Box(centre: Vec3, width: real, height: real)

  /** `struct Ray`, fields in their declared order. */
  datatype Ray = Ray(direction: Vec3, origin: Vec3)

  /** The lower face of the box on axis i: `centre.data[i] - width / 2`. */
  function Low(b: Box, i: nat): real
    requires i < 3
  {
    b.centre.At(i) - b.width / 2.0
  }

  /** The upper face of the box on axis i: `centre.data[i] + width / 2`. */
  function High(b: Box, i: nat): real
    requires i < 3
  {
    b.centre.At(i) + b.width / 2.0
  }

  /**
   * The classification loop: LEFT when the origin lies strictly below the
   * lower face, otherwise RIGHT when it lies strictly above the upper face,
   * otherwise MIDDLE.
   */
  function Classify(b: Box, o: Vec3, i: nat): Quadrant
    requires i < 3
  {
    if o.At(i) < Low(b, i) then BoundaryLeft
    else if o.At(i) > High(b, i) then BoundaryRight
    else Middle
  }

  /** The two faces themselves are part of the slab: an origin on a face is MIDDLE. */
  lemma ClassifyMeaning(b: Box, o: Vec3, i: nat)
    requires i < 3
    ensures Classify(b, o, i) == Middle <==> Low(b, i) <= o.At(i) <= High(b, i)
    ensures Classify(b, o, i) == BoundaryLeft <==> o.At(i) < Low(b, i)
    ensures Classify(b, o, i) == BoundaryRight <==> Low(b, i) <= o.At(i) && High(b, i) < o.At(i)
  {
  }

  /** `candidatePlane[i]` for a non-MIDDLE axis: the face the ray must cross. */
  function Plane(b: Box, o: Vec3, i: nat): (p: real)
    requires i < 3 && Classify(b, o, i) != Middle
    ensures Classify(b, o, i) == BoundaryLeft ==> p == Low(b, i) && o.At(i) < p
    ensures Classify(b, o, i) == BoundaryRight ==> p == High(b, i) && p < o.At(i)
  {
    if Classify(b, o, i) == BoundaryLeft then Low(b, i) else High(b, i)
  }

  /**
   * `maxT[i]` as the code computes it: -1 for a MIDDLE axis or a zero
   * direction component, otherwise `candidatePlane[i] - origin[i] / direction[i]`,
   * which by C++ precedence is NOT the distance `(candidatePlane[i] - origin[i]) / direction[i]`.
   */
  function MaxT(b: Box, r: Ray, i: nat): real
    requires i < 3
  {
    if Classify(b, r.origin, i) != Middle && r.direction.At(i) != 0.0
    then Plane(b, r.origin, i) - r.origin.At(i) / r.direction.At(i)
    else -1.0
  }

  /** The local array `maxT`, filled for axes 0, 1, 2. */
  function MaxTs(b: Box, r: Ray): (m: seq<real>)
    ensures |m| == 3 && forall i :: 0 <= i < 3 ==> m[i] == MaxT(b, r, i)
  {
    [MaxT(b, r, 0), MaxT(b, r, 1), MaxT(b, r, 2)]
  }

  /** w holds a largest entry of m, and no earlier entry is as large. */
  ghost predicate IsFirstMax(m: seq<real>, w: nat)
  {
    && w < |m|
    && (forall k :: 0 <= k < |m| ==> m[k] <= m[w])
    && (forall k :: 0 <= k < w ==> m[k] < m[w])
  }

  /**
   * `whichPlane = 0; for (i = 1; i < 3; i++) if (maxT[whichPlane] < maxT[i]) whichPlane = i;`
   * The strict comparison keeps the lowest index among equal maxima.
   */
  function FirstMax(m: seq<real>): (w: nat)
    requires |m| == 3
    ensures IsFirstMax(m, w)
  {
    var w1 := if m[0] < m[1] then 1 else 0;
    if m[w1] < m[2] then 2 else w1
  }

  /** There is only one first index of the maximum. */
  lemma FirstMaxUnique(m: seq<real>, v: nat, w: nat)
    requires IsFirstMax(m, v) && IsFirstMax(m, w)
    ensures m[v] == m[w] && v == w
  {
  }

  /** The plane the intersector decides on. */
  function Chosen(b: Box, r: Ray): (w: nat)
    ensures w < 3 && IsFirstMax(MaxTs(b, r), w)
  {
    FirstMax(MaxTs(b, r))
  }

  /** A chosen plane with a non-negative `maxT` is a face the ray origin lies outside of. */
  lemma ChosenNonNegativeIsFace(b: Box, r: Ray)
    requires MaxT(b, r, Chosen(b, r)) >= 0.0
    ensures Classify(b, r.origin, Chosen(b, r)) != Middle
    ensures r.direction.At(Chosen(b, r)) != 0.0
  {
  }

  /** The `inside` flag of the classification loop: every axis is MIDDLE. */
  ghost predicate Inside(b: Box, o: Vec3)
  {
    forall i :: 0 <= i < 3 ==> Classify(b, o, i) == Middle
  }

  /** p lies in the closed box. */
  ghost predicate InBox(b: Box, p: Vec3)
  {
    forall i :: 0 <= i < 3 ==> Low(b, i) <= p.At(i) <= High(b, i)
  }

  /** The inside test accepts exactly the points of the closed box, faces included. */
  lemma InsideIffInBox(b: Box, o: Vec3)
    ensures Inside(b, o) <==> InBox(b, o)
  {
    forall i | 0 <= i < 3
      ensures Classify(b, o, i) == Middle <==> Low(b, i) <= o.At(i) <= High(b, i)
    {
      ClassifyMeaning(b, o, i);
    }
  }

  /** Axis i of the point at parameter t along the ray: `origin[i] + t * direction[i]`. */
  function Along(r: Ray, t: real, i: nat): real
    requires i < 3
  {
    r.origin.At(i) + t * r.direction.At(i)
  }

  /** `hitCoord.data[i]` for a non-chosen axis i: the ray at parameter `maxT[whichPlane]`. */
  function HitAt(b: Box, r: Ray, w: nat, i: nat): real
    requires w < 3 && i < 3
  {
    Along(r, MaxT(b, r, w), i)
  }

  /** The validation test: v is NOT below the lower face and NOT above the upper one. */
  predicate InSlab(b: Box, v: real, i: nat)
    requires i < 3
  {
    !(v < Low(b, i) || v > High(b, i))
  }

  // The classification of `findCollisionCoord`, which has no MIDDLE branch:
  // on an axis where the origin lies in the slab, the local arrays keep their
  // uninitialised content, given here as `staleQuadrant` and `stalePlane`.

  function FindQuadrant(b: Box, o: Vec3, staleQuadrant: seq<Quadrant>, i: nat): Quadrant
    requires i < 3 && |staleQuadrant| == 3
  {
    if o.At(i) < Low(b, i) then BoundaryLeft
    else if o.At(i) > High(b, i) then BoundaryRight
    else staleQuadrant[i]
  }

  function FindPlane(b: Box, o: Vec3, stalePlane: seq<real>, i: nat): real
    requires i < 3 && |stalePlane| == 3
  {
    if o.At(i) < Low(b, i) then Low(b, i)
    else if o.At(i) > High(b, i) then High(b, i)
    else stalePlane[i]
  }

  /** `maxT[i]` of `findCollisionCoord`, with the same precedence as `intersect`. */
  function FindMaxT(b: Box, r: Ray, staleQuadrant: seq<Quadrant>, stalePlane: seq<real>, i: nat): real
    requires i < 3 && |staleQuadrant| == 3 && |stalePlane| == 3
  {
    if FindQuadrant(b, r.origin, staleQuadrant, i) != Middle && r.direction.At(i) != 0.0
    then FindPlane(b, r.origin, stalePlane, i) - r.origin.At(i) / r.direction.At(i)
    else -1.0
  }

  function FindMaxTs(b: Box, r: Ray, staleQuadrant: seq<Quadrant>, stalePlane: seq<real>): (m: seq<real>)
    requires |staleQuadrant| == 3 && |stalePlane| == 3
    ensures |m| == 3 && forall i :: 0 <= i < 3 ==> m[i] == FindMaxT(b, r, staleQuadrant, stalePlane, i)
  {
    [FindMaxT(b, r, staleQuadrant, stalePlane, 0),
     FindMaxT(b, r, staleQuadrant, stalePlane, 1),
     FindMaxT(b, r, staleQuadrant, stalePlane, 2)]
  }

  /** The local array `candidatePlane` after the classification loop of `findCollisionCoord`. */
  function FindPlanes(b: Box, o: Vec3, stalePlane: seq<real>): (p: seq<real>)
    requires |stalePlane| == 3
    ensures |p| == 3 && forall i :: 0 <= i < 3 ==> p[i] == FindPlane(b, o, stalePlane, i)
  {
    [FindPlane(b, o, stalePlane, 0), FindPlane(b, o, stalePlane, 1), FindPlane(b, o, stalePlane, 2)]
  }

  /**
   * The coordinate the last loop of `findCollisionCoord` writes for chosen
   * plane w at distance t: the candidate plane on axis w, the point
   * `origin + t * direction` on the others.
   */
  function LandCoord(r: Ray, planes: seq<real>, w: nat, t: real): (c: Vec3)
    requires |planes| == 3
  {
    Vec3(if w == 0 then planes[0] else Along(r, t, 0),
         if w == 1 then planes[1] else Along(r, t, 1),
         if w == 2 then planes[2] else Along(r, t, 2))
  }

  /** The coordinate `findCollisionCoord` stores in the cache. */
  function FoundCoord(b: Box, r: Ray, staleQuadrant: seq<Quadrant>, stalePlane: seq<real>): Vec3
    requires |staleQuadrant| == 3 && |stalePlane| == 3
  {
    var m := FindMaxTs(b, r, staleQuadrant, stalePlane);
    LandCoord(r, FindPlanes(b, r.origin, stalePlane), FirstMax(m), m[FirstMax(m)])
  }

  /**
   * When the origin lies outside the slab on every axis, nothing stale is
   * read: `findCollisionCoord` computes the same distances and candidate
   * planes as `intersect`, chooses the same plane, and stores that face on
   * the chosen axis and `origin + maxT * direction` on the others.
   */
  lemma FoundCoordWhenOutsideEverySlab(b: Box, r: Ray, staleQuadrant: seq<Quadrant>, stalePlane: seq<real>)
    requires |staleQuadrant| == 3 && |stalePlane| == 3
    requires forall i :: 0 <= i < 3 ==> Classify(b, r.origin, i) != Middle
    ensures FindMaxTs(b, r, staleQuadrant, stalePlane) == MaxTs(b, r)
    ensures FindPlanes(b, r.origin, stalePlane) == [Plane(b, r.origin, 0), Plane(b, r.origin, 1), Plane(b, r.origin, 2)]
    ensures FoundCoord(b, r, staleQuadrant, stalePlane)
            == LandCoord(r, FindPlanes(b, r.origin, stalePlane), Chosen(b, r), MaxT(b, r, Chosen(b, r)))
  {
    assert Classify(b, r.origin, 0) != Middle && Classify(b, r.origin, 1) != Middle && Classify(b, r.origin, 2) != Middle;
    assert FindMaxT(b, r, staleQuadrant, stalePlane, 0) == MaxT(b, r, 0);
    assert FindMaxT(b, r, staleQuadrant, stalePlane, 1) == MaxT(b, r, 1);
    assert FindMaxT(b, r, staleQuadrant, stalePlane, 2) == MaxT(b, r, 2);
    assert FindMaxTs(b, r, staleQuadrant, stalePlane) == MaxTs(b, r);
  }

  /**
   * The classification loop of `intersect`, shared by both intersectors: the local arrays `quadrant` and
   * `candidatePlane` and the `inside` flag. `candidatePlane` is meaningful
   * only on the axes that are not MIDDLE.
   */
  method CandidatePlanes(b: Box, o: Vec3) returns (quadrant: array<Quadrant>, candidatePlane: array<real>, inside: bool)
    ensures fresh(quadrant) && fresh(candidatePlane)
    ensures quadrant.Length == 3 && candidatePlane.Length == 3
    ensures forall k :: 0 <= k < 3 ==> quadrant[k] == Classify(b, o, k)
    ensures forall k :: 0 <= k < 3 && quadrant[k] != Middle ==> candidatePlane[k] == Plane(b, o, k)
    ensures inside <==> Inside(b, o)
  {
    inside := true;
    quadrant := new Quadrant[3];
    candidatePlane := new real[3];
    for i := 0 to 3
      modifies quadrant, candidatePlane
      invariant forall k :: 0 <= k < i ==> quadrant[k] == Classify(b, o, k)
      invariant forall k :: 0 <= k < i && quadrant[k] != Middle ==> candidatePlane[k] == Plane(b, o, k)
      invariant inside <==> forall k :: 0 <= k < i ==> quadrant[k] == Middle
    {
      if o.At(i) < b.centre.At(i) - b.width / 2.0 {
        quadrant[i] := BoundaryLeft;
        candidatePlane[i] := b.centre.At(i) - b.width / 2.0;
        inside := false;
      } else if o.At(i) > b.centre.At(i) + b.width / 2.0 {
        quadrant[i] := BoundaryRight;
        candidatePlane[i] := b.centre.At(i) + b.width / 2.0;
        inside := false;
      } else {
        quadrant[i] := Middle;
      }
    }
  }

  /**
   * The distance loop shared by `intersect` and `findCollisionCoord`: -1 on
   * a MIDDLE axis or a zero direction component, otherwise
   * `candidatePlane[i] - origin[i] / direction[i]`, precedence defect included.
   */
  method Distances(r: Ray, quadrant: array<Quadrant>, candidatePlane: array<real>) returns (maxT: array<real>)
    requires quadrant.Length == 3 && candidatePlane.Length == 3
    ensures fresh(maxT) && maxT.Length == 3
    ensures forall k :: 0 <= k < 3 ==>
      maxT[k] == if quadrant[k] != Middle && r.direction.At(k) != 0.0
                 then candidatePlane[k] - r.origin.At(k) / r.direction.At(k) else -1.0
  {
    maxT := new real[3];
    for i := 0 to 3
      modifies maxT
      invariant forall k :: 0 <= k < i ==>
        maxT[k] == if quadrant[k] != Middle && r.direction.At(k) != 0.0
                   then candidatePlane[k] - r.origin.At(k) / r.direction.At(k) else -1.0
    {
      if quadrant[i] != Middle && r.direction.At(i) != 0.0 {
        maxT[i] := candidatePlane[i] - r.origin.At(i) / r.direction.At(i);
      } else {
        maxT[i] := -1.0;
      }
    }
  }

  /**
   * The classification loop of `findCollisionCoord`, which has no MIDDLE
   * branch: the arrays start with the uninitialised content `staleQuadrant`
   * and `stalePlane`, and keep it on the axes where the origin lies in the slab.
   */
  method FindCandidatePlanes(b: Box, o: Vec3, staleQuadrant: seq<Quadrant>, stalePlane: seq<real>)
    returns (quadrant: array<Quadrant>, candidatePlane: array<real>)
    requires |staleQuadrant| == 3 && |stalePlane| == 3
    ensures fresh(quadrant) && fresh(candidatePlane)
    ensures quadrant.Length == 3 && candidatePlane.Length == 3
    ensures forall k :: 0 <= k < 3 ==> quadrant[k] == FindQuadrant(b, o, staleQuadrant, k)
    ensures forall k :: 0 <= k < 3 ==> candidatePlane[k] == FindPlane(b, o, stalePlane, k)
  {
    quadrant := new Quadrant[3](k requires 0 <= k < 3 => staleQuadrant[k]);
    candidatePlane := new real[3](k requires 0 <= k < 3 => stalePlane[k]);
    for i := 0 to 3
      modifies quadrant, candidatePlane
      invariant forall k :: 0 <= k < i ==> quadrant[k] == FindQuadrant(b, o, staleQuadrant, k)
      invariant forall k :: 0 <= k < i ==> candidatePlane[k] == FindPlane(b, o, stalePlane, k)
      invariant forall k :: i <= k < 3 ==> quadrant[k] == staleQuadrant[k] && candidatePlane[k] == stalePlane[k]
    {
      if o.At(i) < b.centre.At(i) - b.width / 2.0 {
        quadrant[i] := BoundaryLeft;
        candidatePlane[i] := b.centre.At(i) - b.width / 2.0;
      } else if o.At(i) > b.centre.At(i) + b.width / 2.0 {
        quadrant[i] := BoundaryRight;
        candidatePlane[i] := b.centre.At(i) + b.width / 2.0;
      }
    }
  }

  /**
   * The plane-choice loop shared by `intersect` and `findCollisionCoord`: the
   * index of the first largest `maxT`.
   */
  method ChoosePlane(maxT: array<real>) returns (whichPlane: nat)
    requires maxT.Length == 3
    ensures IsFirstMax(maxT[..], whichPlane)
    ensures whichPlane == FirstMax(maxT[..])
  {
    whichPlane := 0;
    for i := 1 to 3
      invariant whichPlane < i
      invariant forall k :: 0 <= k < i ==> maxT[k] <= maxT[whichPlane]
      invariant forall k :: 0 <= k < whichPlane ==> maxT[k] < maxT[whichPlane]
    {
      if maxT[whichPlane] < maxT[i] {
        whichPlane := i;
      }
    }
    FirstMaxUnique(maxT[..], whichPlane, FirstMax(maxT[..]));
  }

  /**
   * The last loop of `findCollisionCoord`, which overwrites the cached
   * coordinate component by component: the chosen candidate plane on axis
   * `whichPlane`, `origin + maxT[whichPlane] * direction` on the others.
   */
  method Land(r: Ray, maxT: array<real>, whichPlane: nat, candidatePlane: array<real>, coord: Vec3) returns (c: Vec3)
    requires maxT.Length == 3 && candidatePlane.Length == 3 && whichPlane < 3
    ensures c == LandCoord(r, candidatePlane[..], whichPlane, maxT[whichPlane])
  {
    c := coord;
    for i := 0 to 3
      invariant forall k :: 0 <= k < i ==>
        c.At(k) == if k == whichPlane then candidatePlane[k] else Along(r, maxT[whichPlane], k)
    {
      if whichPlane != i {
        c := c.With(i, r.origin.At(i) + maxT[whichPlane] * r.direction.At(i));
        assert c.At(i) == Along(r, maxT[whichPlane], i);
      } else {
        c := c.With(i, candidatePlane[i]);
      }
    }
    ComponentsDetermine(c, LandCoord(r, candidatePlane[..], whichPlane, maxT[whichPlane]));
  }
}
