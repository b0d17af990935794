/**
 * The simulator on the other end of the autopilot's UDP link
 * (`UDPserver::transfer_data`). Every request is an operation name and a
 * detail string; the reply is text that the autopilot parses with `atof`.
 * The model replaces the socket by a fixed script of replies, read in order,
 * and a log of every request sent, so that a method's contract can say
 * which requests it issued and which reply it used.
 *
 * The three reply shapes of the source:
 *  - `double*`: one reply, the parsed number;
 *  - `int*`: one reply, `atof` stored into an int, so truncated toward zero;
 *  - `v3*`: one request, then three replies, one per component x, y, z.
 */
module Host {
  import opened Vectors

  /** The operation names the autopilot sends. */
  datatype Op =
    | GetPos | SetThrust | GetObjCount | IsVessel | GetSize | GetAngVel
    | SetBank | SetPitch | SetYaw | GetPitch | GetBank | GetYaw | StopThrust

  /**
   * The detail string: `""` (the initial member value), an integer written by
   * `std::to_string(int)` or a literal such as "0" or "60", or a speed
   * difference written by `std::to_string(double)`.
   */
  datatype Detail = Blank | Index(n: int) | Value(v: real)

  datatype Request = Request(op: Op, detail: Detail)

  /** The C++ conversion of a double to an int: truncation toward zero. */
  function Trunc(x: real): (n: int)
    ensures x >= 0.0 ==> n as real <= x < n as real + 1.0
    ensures x < 0.0 ==> n as real - 1.0 < x <= n as real
  {
    if x >= 0.0 then x.Floor else -((-x).Floor)
  }

  /** Truncation is odd: it treats x and -x alike, unlike the floor. */
  lemma TruncOdd(x: real)
    ensures Trunc(-x) == -Trunc(x)
  {
    if x == 0.0 {
    } else if x > 0.0 {
      assert -x < 0.0;
    }
  }

  /** An integer reply of 1 is exactly a reply in [1, 2). */
  lemma TruncIsOne(x: real)
    ensures Trunc(x) == 1 <==> 1.0 <= x < 2.0
  {
  }

  class Host {
    /** The replies the simulator will give, in order. */
    const script: nat -> real
    /** The position of the next unread reply. */
    var next: nat
    /** Every request sent so far, oldest first. */
    var sent: seq<Request>

    constructor (script: nat -> real)
      ensures this.script == script && next == 0 && sent == []
    {
      this.script := script;
      next := 0;
      sent := [];
    }

    /** The three replies starting at position k, as a vector. */
    function VectorAt(k: nat): Vec3
    {
      Vec3(script(k), script(k + 1), script(k + 2))
    }

    /** `transfer_data(operation, detail, double*)`. */
    method QueryReal(op: Op, detail: Detail) returns (v: real)
      modifies this
      ensures v == script(old(next))
      ensures next == old(next) + 1 && sent == old(sent) + [Request(op, detail)]
    {
      sent := sent + [Request(op, detail)];
      v := script(next);
      next := next + 1;
    }

    /** `transfer_data(operation, detail, int*)`. */
    method QueryInt(op: Op, detail: Detail) returns (n: int)
      modifies this
      ensures n == Trunc(script(old(next)))
      ensures next == old(next) + 1 && sent == old(sent) + [Request(op, detail)]
    {
      sent := sent + [Request(op, detail)];
      n := Trunc(script(next));
      next := next + 1;
    }

    /** `transfer_data(operation, detail, v3*)`: one request, three replies. */
    method QueryVector(op: Op, detail: Detail) returns (v: Vec3)
      modifies this
      ensures v == VectorAt(old(next))
      ensures next == old(next) + 3 && sent == old(sent) + [Request(op, detail)]
    {
      sent := sent + [Request(op, detail)];
      var data := Zero;
      for i := 0 to 3
        invariant forall k :: 0 <= k < i ==> data.At(k) == script(next + k)
        invariant forall k :: i <= k < 3 ==> data.At(k) == 0.0
      {
        data := data.With(i, script(next + i));
      }
      ComponentsDetermine(data, VectorAt(next));
      v := data;
      next := next + 3;
    }
  }
}
