/**
 * The 3-vector of the autopilot (`v3`, a union of `double data[3]` and
 * `struct { double x, y, z; }`). Doubles are modelled as reals. The indexed
 * view `At(i)` is the `data[i]` interface: index 0, 1 and 2 are x, y and z,
 * which is what every per-axis loop of the autopilot relies on.
 */
module Vectors {

  datatype Vec3 = Vec3(x: real, y: real, z: real) {

    /** `data[i]`: component i, with 0, 1, 2 naming x, y, z. */
    function At(i: nat): real
      requires i < 3
    {
      if i == 0 then x else if i == 1 then y else z
    }

    /** `data[i] = v`: the vector with component i replaced by v. */
    function With(i: nat, v: real): (r: Vec3)
      requires i < 3
      ensures r.At(i) == v
      ensures forall j :: 0 <= j < 3 && j != i ==> r.At(j) == At(j)
    {
      if i == 0 then Vec3(v, y, z) else if i == 1 then Vec3(x, v, z) else Vec3(x, y, v)
    }
  }

  const Zero: Vec3 := Vec3(0.0, 0.0, 0.0)

  /** Two vectors are equal exactly when their three indexed components are. */
  lemma ComponentsDetermine(a: Vec3, b: Vec3)
    requires forall i :: 0 <= i < 3 ==> a.At(i) == b.At(i)
    ensures a == b
  {
    assert a.At(0) == b.At(0) && a.At(1) == b.At(1) && a.At(2) == b.At(2);
  }

  /** Component-wise difference, as the autopilot writes it axis by axis. */
  function Sub(a: Vec3, b: Vec3): (r: Vec3)
    ensures forall i :: 0 <= i < 3 ==> r.At(i) == a.At(i) - b.At(i)
  {
    Vec3(a.x - b.x, a.y - b.y, a.z - b.z)
  }

  /** `NavAP::dot`: the scalar product of two headings. */
  function Dot(a: Vec3, b: Vec3): real
  {
    a.x * b.x + a.y * b.y + a.z * b.z
  }

  lemma DotSymmetric(a: Vec3, b: Vec3)
    ensures Dot(a, b) == Dot(b, a)
  {
  }

  /**
   * `NavAP::getDistance` returns sqrt(x^2 + y^2 + z^2). The model keeps the
   * squared length: the autopilot only ever compares distances, and sqrt is
   * strictly increasing on the non-negative reals.
   */
  function SquaredLength(v: Vec3): (r: real)
    ensures r >= 0.0
  {
    SquaresNonNegative(v.x, v.y, v.z);
    Dot(v, v)
  }

  lemma SquaresNonNegative(a: real, b: real, c: real)
    ensures a * a + b * b + c * c >= 0.0
  {
    assert a * a >= 0.0 && b * b >= 0.0 && c * c >= 0.0;
  }

  /** The vector scaled by k. */
  function Scale(v: Vec3, k: real): (r: Vec3)
    ensures forall i :: 0 <= i < 3 ==> r.At(i) == k * v.At(i)
  {
    Vec3(k * v.x, k * v.y, k * v.z)
  }

  lemma SquaredLengthOfScale(v: Vec3, k: real)
    ensures SquaredLength(Scale(v, k)) == k * k * SquaredLength(v)
  {
    calc {
      SquaredLength(Scale(v, k));
      (k * v.x) * (k * v.x) + (k * v.y) * (k * v.y) + (k * v.z) * (k * v.z);
      { assert (k * v.x) * (k * v.x) == k * k * (v.x * v.x);
        assert (k * v.y) * (k * v.y) == k * k * (v.y * v.y);
        assert (k * v.z) * (k * v.z) == k * k * (v.z * v.z); }
      k * k * (v.x * v.x + v.y * v.y + v.z * v.z);
    }
  }

  /**
   * `NavAP::normalise`: divides every component of the vector in place by the
   * given length, one index at a time. The result is the vector scaled by
   * 1/vectorLength; when vectorLength is the vector's own length the result
   * has unit length (NormaliseGivesUnitLength).
   */
  method Normalise(normalVector: Vec3, vectorLength: real) returns (r: Vec3)
    requires vectorLength != 0.0
    ensures forall i :: 0 <= i < 3 ==> r.At(i) == normalVector.At(i) / vectorLength
    ensures r == Scale(normalVector, 1.0 / vectorLength)
  {
    r := normalVector;
    for i := 0 to 3
      invariant forall k :: 0 <= k < i ==> r.At(k) == normalVector.At(k) / vectorLength
      invariant forall k :: i <= k < 3 ==> r.At(k) == normalVector.At(k)
    {
      r := r.With(i, r.At(i) / vectorLength);
    }
    ComponentsDetermine(r, Scale(normalVector, 1.0 / vectorLength));
  }

  /** Dividing a non-zero vector by its own length yields a unit vector. */
  lemma NormaliseGivesUnitLength(v: Vec3, len: real)
    requires len > 0.0 && len * len == SquaredLength(v)
    ensures SquaredLength(Scale(v, 1.0 / len)) == 1.0
  {
    SquaredLengthOfScale(v, 1.0 / len);
    assert (1.0 / len) * (1.0 / len) * (len * len) == 1.0;
  }
}
