/**
 * A reference slab-method intersector with the two defects of the source
 * corrected: the distance to a candidate plane is
 * `(candidatePlane - origin) / direction`, and the validation rejects only
 * an unchosen axis whose hit coordinate lies outside its slab. It is proved
 * sound: every point it reports lies on the ray, at a non-negative
 * parameter, and in the closed box. The lemmas at the end exhibit inputs on
 * which the intersectors as written disagree with it.
 */
module RayBoxReference {
  import opened Vectors
  import opened Slab
  import RayBoxSoftware
  import RayBoxLegacy

  datatype Option<T> = None | Some(value: T)

  /** The distance to the candidate plane of axis i, written as intended. */
  function FixedT(b: Box, r: Ray, i: nat): real
    requires i < 3
  {
    if Classify(b, r.origin, i) != Middle && r.direction.At(i) != 0.0
    then (Plane(b, r.origin, i) - r.origin.At(i)) / r.direction.At(i)
    else -1.0
  }

  function FixedTs(b: Box, r: Ray): (m: seq<real>)
    ensures |m| == 3 && forall i :: 0 <= i < 3 ==> m[i] == FixedT(b, r, i)
  {
    [FixedT(b, r, 0), FixedT(b, r, 1), FixedT(b, r, 2)]
  }

  /** The point of the ray at parameter t. */
  function RayPoint(r: Ray, t: real): (p: Vec3)
    ensures forall i :: 0 <= i < 3 ==> p.At(i) == Along(r, t, i)
  {
    Vec3(Along(r, t, 0), Along(r, t, 1), Along(r, t, 2))
  }

  /** The three classifications are MIDDLE. */
  predicate OriginInside(b: Box, o: Vec3)
  {
    Classify(b, o, 0) == Middle && Classify(b, o, 1) == Middle && Classify(b, o, 2) == Middle
  }

  /** Every axis other than w has the ray point at parameter t in its slab. */
  predicate OthersInSlab(b: Box, r: Ray, w: nat, t: real)
  {
    && (w == 0 || InSlab(b, Along(r, t, 0), 0))
    && (w == 1 || InSlab(b, Along(r, t, 1), 1))
    && (w == 2 || InSlab(b, Along(r, t, 2), 2))
  }

  /**
   * The intended intersection: the origin itself when it lies in the box;
   * otherwise the crossing of the face with the largest distance, if that
   * distance is non-negative and the crossing lies within the other two slabs.
   */
  function ReferenceIntersect(b: Box, r: Ray): Option<Vec3>
  {
    if OriginInside(b, r.origin) then Some(r.origin)
    else
      var w := FirstMax(FixedTs(b, r));
      var t := FixedTs(b, r)[w];
      if t < 0.0 || !OthersInSlab(b, r, w, t) then None
      else Some(RayPoint(r, t).With(w, Plane(b, r.origin, w)))
  }

  /** Moving from o by (x - o) / d steps of length d reaches x. */
  lemma StepsReach(o: real, x: real, d: real)
    requires d != 0.0
    ensures o + (x - o) / d * d == x
  {
  }

  /** On the chosen axis the reported face is exactly where the ray arrives. */
  lemma ChosenFaceOnRay(b: Box, r: Ray, w: nat)
    requires w < 3 && FixedT(b, r, w) >= 0.0
    ensures Classify(b, r.origin, w) != Middle && r.direction.At(w) != 0.0
    ensures Along(r, FixedT(b, r, w), w) == Plane(b, r.origin, w)
  {
    StepsReach(r.origin.At(w), Plane(b, r.origin, w), r.direction.At(w));
  }

  /**
   * Soundness of the corrected algorithm: for a box of non-negative width a
   * reported point lies in the closed box and on the ray at a non-negative
   * parameter.
   */
  lemma ReferenceSound(b: Box, r: Ray)
    requires b.width >= 0.0
    ensures var res := ReferenceIntersect(b, r);
      res.Some? ==> InBox(b, res.value) && exists t :: t >= 0.0 && res.value == RayPoint(r, t)
  {
    var res := ReferenceIntersect(b, r);
    if OriginInside(b, r.origin) {
      ClassifyMeaning(b, r.origin, 0);
      ClassifyMeaning(b, r.origin, 1);
      ClassifyMeaning(b, r.origin, 2);
      assert res.value == RayPoint(r, 0.0);
    } else if res.Some? {
      var w := FirstMax(FixedTs(b, r));
      var t := FixedTs(b, r)[w];
      ChosenFaceOnRay(b, r, w);
      var p := RayPoint(r, t).With(w, Plane(b, r.origin, w));
      assert res.value == p;
      ComponentsDetermine(p, RayPoint(r, t));
      forall i | 0 <= i < 3
        ensures Low(b, i) <= p.At(i) <= High(b, i)
      {
        if i == w {
          ClassifyMeaning(b, r.origin, w);
        }
      }
    }
  }

  /** x / d is at most t when x is at most t * d for a positive d, or at least it for a negative one. */
  lemma QuotientAtMost(x: real, d: real, t: real)
    requires (d > 0.0 && x <= t * d) || (d < 0.0 && x >= t * d)
    ensures x / d <= t
  {
    var q := x / d;
    assert q * d == x;
    if q > t {
      assert (q - t) * d == x - t * d;
      if d > 0.0 {
        assert (q - t) * d > 0.0;
      } else {
        assert (q - t) * d < 0.0;
      }
    }
  }

  /**
   * An axis the origin lies outside of, whose slab holds the ray point at
   * t >= 0: the ray moves toward the slab and crosses its face at a
   * parameter between 0 and t.
   */
  lemma CrossedBefore(b: Box, r: Ray, i: nat, t: real)
    requires i < 3 && t >= 0.0 && InSlab(b, Along(r, t, i), i) && Classify(b, r.origin, i) != Middle
    ensures r.direction.At(i) != 0.0 && 0.0 <= FixedT(b, r, i) <= t
  {
    var o, d := r.origin.At(i), r.direction.At(i);
    var x := Plane(b, r.origin, i) - o;
    if Classify(b, r.origin, i) == BoundaryLeft {
      assert 0.0 < x <= t * d;
      assert d > 0.0 && x / d > 0.0;
    } else {
      assert t * d <= x < 0.0;
      assert d < 0.0 && x / d > 0.0;
    }
    assert FixedT(b, r, i) == x / d;
    QuotientAtMost(x, d, t);
  }

  /**
   * Completeness of the corrected algorithm: whenever some point of the ray
   * at a non-negative parameter lies in the closed box, a hit is reported.
   * With ReferenceSound, the corrected intersector reports a hit exactly
   * when the ray meets the box.
   */
  lemma ReferenceComplete(b: Box, r: Ray, t: real)
    requires t >= 0.0 && InBox(b, RayPoint(r, t))
    ensures ReferenceIntersect(b, r).Some?
  {
    if !OriginInside(b, r.origin) {
      var m := FixedTs(b, r);
      var w := FirstMax(m);
      var tw := m[w];
      var a := if Classify(b, r.origin, 0) != Middle then 0 else if Classify(b, r.origin, 1) != Middle then 1 else 2;
      assert RayPoint(r, t).At(a) == Along(r, t, a);
      CrossedBefore(b, r, a, t);
      assert tw >= m[a] >= 0.0;
      ChosenFaceOnRay(b, r, w);
      assert RayPoint(r, t).At(w) == Along(r, t, w);
      CrossedBefore(b, r, w, t);
      forall j | 0 <= j < 3 && j != w
        ensures InSlab(b, Along(r, tw, j), j)
      {
        assert RayPoint(r, t).At(j) == Along(r, t, j);
        assert m[j] <= tw;
        StillInSlab(b, r, j, tw, t);
      }
    }
  }

  /**
   * An axis whose slab holds the ray point at t also holds it at any s in
   * [0, t] at or after the axis's own crossing (for an axis the origin lies
   * in, there is no crossing to wait for).
   */
  lemma StillInSlab(b: Box, r: Ray, j: nat, s: real, t: real)
    requires j < 3 && 0.0 <= s <= t && InSlab(b, Along(r, t, j), j)
    requires Classify(b, r.origin, j) != Middle ==> FixedT(b, r, j) <= s
    ensures InSlab(b, Along(r, s, j), j)
  {
    var o, d := r.origin.At(j), r.direction.At(j);
    var lo, hi := Low(b, j), High(b, j);
    assert Along(r, s, j) == o + s * d && Along(r, t, j) == o + t * d;
    if Classify(b, r.origin, j) == Middle {
      ClassifyMeaning(b, r.origin, j);
      assert o + 0.0 * d == o;
      Between(o, d, 0.0, s, t, lo, hi);
    } else {
      CrossedBefore(b, r, j, t);
      ChosenFaceOnRay(b, r, j);
      var f := FixedT(b, r, j);
      assert Along(r, f, j) == o + f * d == Plane(b, r.origin, j);
      Between(o, d, f, s, t, lo, hi);
    }
  }

  /** A linear motion that is within [lo, hi] at parameters a and t is within it at every s between. */
  lemma Between(o: real, d: real, a: real, s: real, t: real, lo: real, hi: real)
    requires a <= s <= t && lo <= o + a * d <= hi && lo <= o + t * d <= hi
    ensures lo <= o + s * d <= hi
  {
    var u, v := s - a, t - s;
    assert o + s * d == (o + a * d) + u * d;
    assert o + t * d == (o + s * d) + v * d;
    if d >= 0.0 {
      assert u * d >= 0.0 && v * d >= 0.0;
    } else {
      assert u * d <= 0.0 && v * d <= 0.0;
    }
  }

  // The defects of the source, on concrete inputs.

  /** The box of centre 0 and width 2. */
  const UnitBox: Box := Box(Zero, 2.0, 2.0)

  /**
   * src/raybox.cpp:103-106: a ray from (5, 0, 0) heading along -x crosses the
   * face x = 1 of the box, and the intersector with braces (RayBox.cpp)
   * reports the hit; the newer copy, whose `return false` no longer belongs
   * to the `if`, reports a miss.
   */
  lemma MissingBracesCounterexample(stale: Vec3, before: RayBoxSoftware.Cache)
    ensures var r := Ray(Vec3(-1.0, 0.0, 0.0), Vec3(5.0, 0.0, 0.0));
            && !RayBoxSoftware.IntersectEffect(UnitBox, r, stale, before).hit
            && RayBoxLegacy.LegacyHit(UnitBox, r)
            && ReferenceIntersect(UnitBox, r) == Some(Vec3(1.0, 0.0, 0.0))
  {
    var r := Ray(Vec3(-1.0, 0.0, 0.0), Vec3(5.0, 0.0, 0.0));
    assert Classify(UnitBox, r.origin, 0) == BoundaryRight;
    assert MaxT(UnitBox, r, 0) == 6.0 && MaxT(UnitBox, r, 1) == -1.0 && MaxT(UnitBox, r, 2) == -1.0;
    assert Chosen(UnitBox, r) == 0;
    assert !Inside(UnitBox, r.origin);
    RayBoxSoftware.HitIffOriginInBox(UnitBox, r, stale, before);
    InsideIffInBox(UnitBox, r.origin);
    assert FixedT(UnitBox, r, 0) == 4.0;
    assert Along(r, 6.0, 1) == 0.0 && Along(r, 6.0, 2) == 0.0;
  }

  /**
   * src/raybox.cpp:86 and RayBox.cpp:72: a ray from (2, 0, 0) heading along
   * +x moves away from the box. The distance as written,
   * 1 - 2 / 10 = 0.8, is positive and RayBox.cpp reports a hit; the intended
   * distance (1 - 2) / 10 = -0.1 is negative and rejects it.
   */
  lemma PrecedenceCounterexample()
    ensures var r := Ray(Vec3(10.0, 0.0, 0.0), Vec3(2.0, 0.0, 0.0));
            && MaxT(UnitBox, r, 0) == 0.8
            && FixedT(UnitBox, r, 0) == -0.1
            && RayBoxLegacy.LegacyHit(UnitBox, r)
            && ReferenceIntersect(UnitBox, r) == None
  {
    var r := Ray(Vec3(10.0, 0.0, 0.0), Vec3(2.0, 0.0, 0.0));
    assert Classify(UnitBox, r.origin, 0) == BoundaryRight;
    assert MaxT(UnitBox, r, 1) == -1.0 && MaxT(UnitBox, r, 2) == -1.0;
    assert Chosen(UnitBox, r) == 0;
    assert Along(r, 0.8, 1) == 0.0 && Along(r, 0.8, 2) == 0.0;
  }
}
