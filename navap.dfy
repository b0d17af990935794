/**
 * The navigation autopilot of src/navap.cpp (`NavAP`), run against the
 * simulator of module Host. The object keeps the vessel's and the
 * destination's kinematics, the last reply and difference of each
 * rotation command (`valuesRCS`, `valuesDelta`), the tag of the last
 * collision maneuver (`completedRCSOperations`), whether the vessel was
 * aligned once (`onCourse`) and the member `detail` string, which is sent
 * again by the `GET_OBJ_COUNT` request.
 *
 * `atan2` is the uninterpreted function `bearing`. Distances are squared
 * lengths (see Decisions.SquaredThreshold and Decisions.SquaredOrder).
 * Unbounded loops take a `fuel` bound and report running out of it.
 */
module Navigation {
  import opened Vectors
  import opened Slab
  import opened Host
  import opened Decisions
  import RayBoxSoftware

  /** `objectProperties`: the kinematics of the vessel or of the destination. */
  datatype ObjectProperties = ObjectProperties(direction: Vec3, currentPosition: Vec3, previousPosition: Vec3, length: real)

  /**
   * The values the source reads from uninitialised locals: `hit` stands for
   * `hitCoord` of `intersect`, `quadrant` and `plane` for the arrays of
   * `findCollisionCoord`, `collisionCoord` and `newCollide` for the
   * coordinates of `collisionHandler`, which `findCollisionCoord` receives
   * by value and so never writes.
   */
  datatype Stale = Stale(hit: Vec3, quadrant: seq<Quadrant>, plane: seq<real>, collisionCoord: Vec3, newCollide: Vec3)
  {
    predicate WellFormed()
    {
      |quadrant| == 3 && |plane| == 3
    }
  }

  /** The two alignment loops of `NavAPMain`: yaw for the x angle, pitch for the y angle. */
  datatype Axis = YawAxis | PitchAxis

  /**
   * The reversal a collision handler issued, if any: the maneuver, the
   * position in the request log where its requests start, and the position
   * of the first reply it read.
   */
  datatype Issued = NotIssued | IssuedAt(maneuver: Maneuver, sentAt: nat, replyAt: nat)

  /**
   * From position `from` on, the log `sent` holds only the `GET_POS` "0"
   * requests of fresh rays, except for the three requests of the issued
   * reversal, if any, at the place its record gives.
   */
  ghost predicate ProbesOrReversal(sent: seq<Request>, from: nat, rev: Issued)
  {
    forall k | from <= k < |sent| ::
      sent[k] == Request(GetPos, Index(0)) || (rev.IssuedAt? && rev.sentAt <= k < rev.sentAt + 3)
  }

  /**
   * Two stretches of the log of that form make one, as long as the record
   * did not change or the first stretch had none.
   */
  lemma {:induction false} ProbesJoin(s1: seq<Request>, s2: seq<Request>, a: nat, rev1: Issued, rev2: Issued)
    requires a <= |s1| && s1 <= s2
    requires ProbesOrReversal(s1, a, rev1) && ProbesOrReversal(s2, |s1|, rev2)
    requires rev1 == rev2 || rev1 == NotIssued
    ensures ProbesOrReversal(s2, a, rev2)
  {
    forall k | a <= k < |s2|
      ensures s2[k] == Request(GetPos, Index(0)) || (rev2.IssuedAt? && rev2.sentAt <= k < rev2.sentAt + 3)
    {
      if k < |s1| {
        assert s2[k] == s1[k];
      }
    }
  }

  // ----------------------------------------------------- alignment loop traces

  /** The request a yaw or pitch alignment loop sends its speeds with. */
  function SpeedOp(which: Axis): Op
  {
    match which
    case YawAxis => Op.SetYaw
    case PitchAxis => Op.SetPitch
  }

  /**
   * The replies one pass of an alignment loop reads: with a speed, the
   * angular velocity (3) and the speed's reply (1); then the stop (1) and
   * the position (3).
   */
  function StepReplies(c: Command): nat
  {
    if c.Speed? then 8 else 4
  }

  /** The position of the next reply after the passes for the errors `errs`, from state s and reply k. */
  function AlignReplies(errs: seq<real>, s: Bracket, k: nat): (n: nat)
    ensures n >= k + 4 * |errs|
  {
    if errs == [] then k
    else
      var r := BangBangStep(errs[0], s);
      AlignReplies(errs[1..], r.next, k + StepReplies(r.command))
  }

  /** Where each speed's angular velocity reply starts, one entry per speed sent. */
  function SpeedReplyAt(errs: seq<real>, s: Bracket, k: nat): seq<nat>
  {
    if errs == [] then []
    else
      var r := BangBangStep(errs[0], s);
      (if r.command.Speed? then [k] else []) + SpeedReplyAt(errs[1..], r.next, k + StepReplies(r.command))
  }

  /** The requests of a log with operation `op`, in order. */
  function RequestsOf(op: Op, rs: seq<Request>): seq<Request>
  {
    if rs == [] then []
    else (if rs[0].op == op then [rs[0]] else []) + RequestsOf(op, rs[1..])
  }

  lemma {:induction false} RequestsOfAppend(op: Op, a: seq<Request>, b: seq<Request>)
    ensures RequestsOf(op, a + b) == RequestsOf(op, a) + RequestsOf(op, b)
  {
    if a != [] {
      assert (a + b)[0] == a[0];
      assert (a + b)[1..] == a[1..] + b;
      RequestsOfAppend(op, a[1..], b);
    } else {
      assert a + b == b;
    }
  }

  /** One more error adds the replies of its own pass. */
  lemma {:induction false} AlignRepliesSnoc(errs: seq<real>, s: Bracket, k: nat, e: real)
    ensures AlignReplies(errs + [e], s, k) == AlignReplies(errs, s, k) + StepReplies(BangBangStep(e, Final(errs, s)).command)
  {
    if errs != [] {
      assert (errs + [e])[0] == errs[0];
      assert (errs + [e])[1..] == errs[1..] + [e];
      var r := BangBangStep(errs[0], s);
      AlignRepliesSnoc(errs[1..], r.next, k + StepReplies(r.command), e);
    }
  }

  /**
   * The bang-bang side of an alignment loop after the errors `errs`, each
   * more than 0.2 from the target: the state and the speeds are those the
   * steps for those errors give.
   */
  ghost predicate Bracketed(errs: seq<real>, speeds: seq<real>, s: Bracket)
  {
    && Reachable(s) && s == Final(errs, Unset) && speeds == Commands(errs, Unset)
    && forall k :: 0 <= k < |errs| ==> Abs(errs[k]) > 0.2
  }

  /** One more error beyond 0.2 takes one more step. */
  lemma {:induction false} BracketedSnoc(errs: seq<real>, speeds: seq<real>, s: Bracket, e: real)
    requires Bracketed(errs, speeds, s) && Abs(e) > 0.2
    ensures var step := BangBangStep(e, s); Bracketed(errs + [e], speeds + Emitted(step), step.next)
  {
    CommandsSnoc(errs, Unset, e);
    assert forall k :: 0 <= k < |errs + [e]| ==> Abs((errs + [e])[k]) > 0.2 by {
      forall k | 0 <= k < |errs + [e]|
        ensures Abs((errs + [e])[k]) > 0.2
      {
        if k < |errs| {
          assert (errs + [e])[k] == errs[k];
        }
      }
    }
  }

  /** How `collisionHandler` returns. */
  datatype HandlerExit = FarAway | Escaped | HandlerOutOfFuel

  /** How the object loop of `NavAPMain`, or one pass of it, ends. */
  datatype ScanExit = Scanned | Self(index: int) | ScanOutOfFuel

  /** How `NavAPMain` ends. */
  datatype MainOutcome = Arrived | SelfDetected(index: int) | Holding | OutOfFuel

  /** Whether a pass of the navigation loop goes on to the next one or ends `NavAPMain`. */
  datatype PassExit = Continue | Exit(outcome: MainOutcome)

  /** The part of the state only the main loop changes: the destination and the course bookkeeping. */
  datatype Voyage = Voyage(dest: ObjectProperties, onCourse: bool, countIterations: real, objSize: real, isCollision: bool)

  /** The part of the state a rotation command leaves alone. */
  datatype Rest = Rest(voyage: Voyage, completedRCSOperations: int)

  class NavAP {
    const host: Host
    /** `atan2(y, x)`. */
    const bearing: (real, real) -> real
    var vessel: ObjectProperties
    var dest: ObjectProperties
    var completedRCSOperations: int
    const valuesRCS: array<real>
    const valuesDelta: array<real>
    var detail: Detail
    var onCourse: bool
    var countIterations: real
    var objSize: real
    var isCollision: bool

    ghost predicate Valid()
    {
      valuesRCS.Length == 3 && valuesDelta.Length == 3 && valuesRCS != valuesDelta
    }

    function Progress(): Voyage
      reads this
    {
      Voyage(dest, onCourse, countIterations, objSize, isCollision)
    }

    function Others(): Rest
      reads this
    {
      Rest(Progress(), completedRCSOperations)
    }

    /**
     * `NavAP(debug)`: connects to the simulator (here: is given it) and
     * starts off course, with no iterations, no object size and an empty
     * detail string, as the member initialisers of navap.h say.
     */
    constructor (host: Host, bearing: (real, real) -> real)
      ensures Valid() && fresh(valuesRCS) && fresh(valuesDelta)
      ensures this.host == host && this.bearing == bearing
      ensures !onCourse && countIterations == 0.0 && objSize == 0.0 && detail == Blank
    {
      this.host := host;
      this.bearing := bearing;
      vessel := ObjectProperties(Zero, Zero, Zero, 0.0);
      dest := ObjectProperties(Zero, Zero, Zero, 0.0);
      completedRCSOperations := 0;
      valuesRCS := new real[3];
      valuesDelta := new real[3];
      detail := Blank;
      onCourse := false;
      countIterations := 0.0;
      objSize := 0.0;
      isCollision := false;
    }

    /**
     * `init`: zeroes every component of both objects' current position,
     * previous position and direction, then asks for object 60's position
     * and makes it the destination.
     */
    method Init()
      modifies this, host
      ensures vessel == old(vessel).(direction := Zero, currentPosition := Zero, previousPosition := Zero)
      ensures dest == old(dest).(direction := Zero, previousPosition := Zero,
                                 currentPosition := host.VectorAt(old(host.next)))
      ensures detail == Index(60)
      ensures host.next == old(host.next) + 3 && host.sent == old(host.sent) + [Request(GetPos, Index(60))]
      ensures completedRCSOperations == old(completedRCSOperations) && onCourse == old(onCourse)
      ensures countIterations == old(countIterations) && objSize == old(objSize) && isCollision == old(isCollision)
    {
      for i := 0 to 3
        invariant forall k :: 0 <= k < i ==>
          vessel.currentPosition.At(k) == 0.0 && vessel.previousPosition.At(k) == 0.0 && vessel.direction.At(k) == 0.0
        invariant forall k :: i <= k < 3 ==>
          vessel.currentPosition.At(k) == old(vessel.currentPosition.At(k)) &&
          vessel.previousPosition.At(k) == old(vessel.previousPosition.At(k)) &&
          vessel.direction.At(k) == old(vessel.direction.At(k))
        invariant forall k :: 0 <= k < i ==> dest.previousPosition.At(k) == 0.0 && dest.direction.At(k) == 0.0
        invariant forall k :: i <= k < 3 ==>
          dest.previousPosition.At(k) == old(dest.previousPosition.At(k)) && dest.direction.At(k) == old(dest.direction.At(k))
        invariant vessel.length == old(vessel.length) && dest.length == old(dest.length)
        invariant host.next == old(host.next) && host.sent == old(host.sent)
        invariant completedRCSOperations == old(completedRCSOperations) && onCourse == old(onCourse)
        invariant countIterations == old(countIterations) && objSize == old(objSize) && isCollision == old(isCollision)
      {
        vessel := vessel.(currentPosition := vessel.currentPosition.With(i, 0.0),
                          previousPosition := vessel.previousPosition.With(i, 0.0),
                          direction := vessel.direction.With(i, 0.0));
        dest := dest.(currentPosition := dest.currentPosition.With(i, 0.0),
                      previousPosition := dest.previousPosition.With(i, 0.0),
                      direction := dest.direction.With(i, 0.0));
      }
      ComponentsDetermine(vessel.currentPosition, Zero);
      ComponentsDetermine(vessel.previousPosition, Zero);
      ComponentsDetermine(vessel.direction, Zero);
      ComponentsDetermine(dest.previousPosition, Zero);
      ComponentsDetermine(dest.direction, Zero);
      // set the destination for the vessel
      detail := Index(60);
      var destinationPos := host.QueryVector(GetPos, detail);
      SetNavDestination(destinationPos);
    }

    /** `setNavDestination`: copies the target into the destination's position, axis by axis. */
    method SetNavDestination(targetDest: Vec3)
      modifies this
      ensures dest == old(dest).(currentPosition := targetDest)
      ensures vessel == old(vessel) && detail == old(detail)
      ensures completedRCSOperations == old(completedRCSOperations) && onCourse == old(onCourse)
      ensures countIterations == old(countIterations) && objSize == old(objSize) && isCollision == old(isCollision)
    {
      for i := 0 to 3
        invariant forall k :: 0 <= k < i ==> dest.currentPosition.At(k) == targetDest.At(k)
        invariant dest == old(dest).(currentPosition := dest.currentPosition)
        invariant vessel == old(vessel) && detail == old(detail)
        invariant completedRCSOperations == old(completedRCSOperations) && onCourse == old(onCourse)
        invariant countIterations == old(countIterations) && objSize == old(objSize) && isCollision == old(isCollision)
      {
        dest := dest.(currentPosition := dest.currentPosition.With(i, targetDest.At(i)));
      }
      ComponentsDetermine(dest.currentPosition, targetDest);
    }

    /**
     * `setBankSpeed`: asks for the angular velocity, sends the difference
     * between the wanted speed and its z component, and records the reply
     * and the difference at index 0 only.
     */
    method SetBankSpeed(value: real)
      requires Valid()
      modifies host, valuesRCS, valuesDelta
      ensures valuesDelta[..] == old(valuesDelta[..])[0 := value - host.VectorAt(old(host.next)).z]
      ensures valuesRCS[..] == old(valuesRCS[..])[0 := host.script(old(host.next) + 3)]
      ensures host.next == old(host.next) + 4
      ensures host.sent == old(host.sent) + [Request(GetAngVel, Index(0)), Request(Op.SetBank, Value(valuesDelta[0]))]
    {
      var currentRotVel := host.QueryVector(GetAngVel, Index(0));
      var deltaVel := value - currentRotVel.z;
      valuesRCS[0] := host.QueryReal(Op.SetBank, Value(deltaVel));
      valuesDelta[0] := deltaVel;
    }

    /** `setPitchSpeed`: as `setBankSpeed`, with the x component, at index 1. */
    method SetPitchSpeed(value: real)
      requires Valid()
      modifies host, valuesRCS, valuesDelta
      ensures valuesDelta[..] == old(valuesDelta[..])[1 := value - host.VectorAt(old(host.next)).x]
      ensures valuesRCS[..] == old(valuesRCS[..])[1 := host.script(old(host.next) + 3)]
      ensures host.next == old(host.next) + 4
      ensures host.sent == old(host.sent) + [Request(GetAngVel, Index(0)), Request(Op.SetPitch, Value(valuesDelta[1]))]
    {
      var currentRotVel := host.QueryVector(GetAngVel, Index(0));
      var deltaVel := value - currentRotVel.x;
      valuesRCS[1] := host.QueryReal(Op.SetPitch, Value(deltaVel));
      valuesDelta[1] := deltaVel;
    }

    /** `setYawSpeed`: the difference is `value - (-y)`, recorded at index 2. */
    method SetYawSpeed(value: real)
      requires Valid()
      modifies host, valuesRCS, valuesDelta
      ensures valuesDelta[..] == old(valuesDelta[..])[2 := value + host.VectorAt(old(host.next)).y]
      ensures valuesRCS[..] == old(valuesRCS[..])[2 := host.script(old(host.next) + 3)]
      ensures host.next == old(host.next) + 4
      ensures host.sent == old(host.sent) + [Request(GetAngVel, Index(0)), Request(Op.SetYaw, Value(valuesDelta[2]))]
    {
      var currentRotVel := host.QueryVector(GetAngVel, Index(0));
      var deltaVel := value - (-currentRotVel.y);
      valuesRCS[2] := host.QueryReal(Op.SetYaw, Value(deltaVel));
      valuesDelta[2] := deltaVel;
    }

    /**
     * `setPitch`: clamps the target, reads the current pitch and commands the
     * negated clamped approach speed, so the speed sent is
     * `PitchCommand(pitch, currentPitch)`, of magnitude at most 0.04.
     */
    method SetPitch(pitch: real)
      requires Valid()
      modifies this, host, valuesRCS, valuesDelta
      ensures valuesDelta[..] == old(valuesDelta[..])[1 :=
        PitchCommand(pitch, host.script(old(host.next))) - host.VectorAt(old(host.next) + 1).x]
      ensures valuesRCS[..] == old(valuesRCS[..])[1 := host.script(old(host.next) + 4)]
      ensures host.next == old(host.next) + 5
      ensures host.sent == old(host.sent) +
        [Request(Op.GetPitch, Index(0)), Request(GetAngVel, Index(0)), Request(Op.SetPitch, Value(valuesDelta[1]))]
      ensures vessel == old(vessel) && Others() == old(Others()) && detail == Index(0)
    {
      var p := pitch;
      if p > 1.5 {
        p := 1.5;
      }
      if p < -1.5 {
        p := -1.5;
      }
      detail := Index(0);
      var currentPitch := host.QueryReal(Op.GetPitch, detail);
      var deltaPitch := currentPitch - p;
      var pitchSpeed := deltaPitch * 0.1;
      if pitchSpeed > 0.04 {
        pitchSpeed := 0.04;
      }
      if pitchSpeed < -0.04 {
        pitchSpeed := -0.04;
      }
      assert -pitchSpeed == PitchCommand(pitch, currentPitch);
      SetPitchSpeed(-pitchSpeed);
    }

    /** `setRoll`: negates the roll, without clamping it, and commands the clamped approach speed. */
    method SetRoll(roll: real)
      requires Valid()
      modifies this, host, valuesRCS, valuesDelta
      ensures valuesDelta[..] == old(valuesDelta[..])[0 :=
        RollCommand(roll, host.script(old(host.next))) - host.VectorAt(old(host.next) + 1).z]
      ensures valuesRCS[..] == old(valuesRCS[..])[0 := host.script(old(host.next) + 4)]
      ensures host.next == old(host.next) + 5
      ensures host.sent == old(host.sent) +
        [Request(Op.GetBank, Index(0)), Request(GetAngVel, Index(0)), Request(Op.SetBank, Value(valuesDelta[0]))]
      ensures vessel == old(vessel) && Others() == old(Others()) && detail == Index(0)
    {
      var r := -roll;
      detail := Index(0);
      var currentBank := host.QueryReal(Op.GetBank, detail);
      var deltaBank := currentBank - r;
      var bankSpeed := deltaBank * 0.1;
      if bankSpeed > 0.04 {
        bankSpeed := 0.04;
      }
      if bankSpeed < -0.04 {
        bankSpeed := -0.04;
      }
      assert bankSpeed == RollCommand(roll, currentBank);
      SetBankSpeed(bankSpeed);
    }

    /** `setYaw`: clamps the target and commands the clamped approach speed, not negated. */
    method SetYaw(yaw: real)
      requires Valid()
      modifies this, host, valuesRCS, valuesDelta
      ensures valuesDelta[..] == old(valuesDelta[..])[2 :=
        YawCommand(yaw, host.script(old(host.next))) + host.VectorAt(old(host.next) + 1).y]
      ensures valuesRCS[..] == old(valuesRCS[..])[2 := host.script(old(host.next) + 4)]
      ensures host.next == old(host.next) + 5
      ensures host.sent == old(host.sent) +
        [Request(Op.GetYaw, Index(0)), Request(GetAngVel, Index(0)), Request(Op.SetYaw, Value(valuesDelta[2]))]
      ensures vessel == old(vessel) && Others() == old(Others()) && detail == Index(0)
    {
      var y := yaw;
      if y > 1.5 {
        y := 1.5;
      }
      if y < -1.5 {
        y := -1.5;
      }
      detail := Index(0);
      var currentYaw := host.QueryReal(Op.GetYaw, detail);
      var deltaYaw := currentYaw - y;
      var yawSpeed := deltaYaw * 0.1;
      if yawSpeed > 0.04 {
        yawSpeed := 0.04;
      }
      if yawSpeed < -0.04 {
        yawSpeed := -0.04;
      }
      assert yawSpeed == YawCommand(yaw, currentYaw);
      SetYawSpeed(yawSpeed);
    }

    /** `getPitch`: the simulator's reply to `GET_PITCH "0"`. */
    method GetPitch() returns (currentPitch: real)
      modifies this, host
      ensures currentPitch == host.script(old(host.next))
      ensures host.next == old(host.next) + 1 && host.sent == old(host.sent) + [Request(Op.GetPitch, Index(0))]
      ensures vessel == old(vessel) && Others() == old(Others()) && detail == Index(0)
    {
      detail := Index(0);
      currentPitch := host.QueryReal(Op.GetPitch, detail);
    }

    /** `getBank`: the reply to `GET_BANK "0"`. */
    method GetBank() returns (currentBank: real)
      modifies this, host
      ensures currentBank == host.script(old(host.next))
      ensures host.next == old(host.next) + 1 && host.sent == old(host.sent) + [Request(Op.GetBank, Index(0))]
      ensures vessel == old(vessel) && Others() == old(Others()) && detail == Index(0)
    {
      detail := Index(0);
      currentBank := host.QueryReal(Op.GetBank, detail);
    }

    /** `getYaw`: the reply to `GET_YAW "0"`. */
    method GetYaw() returns (currentYaw: real)
      modifies this, host
      ensures currentYaw == host.script(old(host.next))
      ensures host.next == old(host.next) + 1 && host.sent == old(host.sent) + [Request(Op.GetYaw, Index(0))]
      ensures vessel == old(vessel) && Others() == old(Others()) && detail == Index(0)
    {
      detail := Index(0);
      currentYaw := host.QueryReal(Op.GetYaw, detail);
    }

    /** `stopThrust`: sends `STOP_THRUST "0"`; the reply is discarded. */
    method StopThrust()
      modifies this, host
      ensures host.next == old(host.next) + 1 && host.sent == old(host.sent) + [Request(Op.StopThrust, Index(0))]
      ensures vessel == old(vessel) && Others() == old(Others()) && detail == Index(0)
    {
      detail := Index(0);
      var thrust := host.QueryReal(Op.StopThrust, detail);
    }

    /**
     * `setupNewRay`: the given position becomes the previous one, a fresh
     * position is read, and the ray starts there and points along the step
     * just made. The box and cache of the ray object are not touched.
     */
    method SetupNewRay(ray: RayBoxSoftware.RayBox, currentPosition: Vec3)
      modifies this, host, ray
      ensures vessel == old(vessel).(previousPosition := currentPosition, currentPosition := host.VectorAt(old(host.next)))
      ensures ray.vesselRay == Ray(Sub(vessel.currentPosition, currentPosition), vessel.currentPosition)
      ensures ray.box1 == old(ray.box1) && ray.collisionCoord == old(ray.collisionCoord) && ray.isCoordFound == old(ray.isCoordFound)
      ensures host.next == old(host.next) + 3 && host.sent == old(host.sent) + [Request(GetPos, Index(0))]
      ensures Others() == old(Others()) && detail == Index(0)
    {
      // Store the previous position to an old position
      vessel := vessel.(previousPosition := currentPosition);
      // Get the latest position of the vessel
      detail := Index(0);
      var position := host.QueryVector(GetPos, detail);
      vessel := vessel.(currentPosition := position);
      // Find direction vectors of new position
      var newDirection := Sub(vessel.currentPosition, vessel.previousPosition);
      ray.vesselRay := Ray(newDirection, vessel.currentPosition);
    }

    /**
     * The requests a maneuver sends when the simulator's next reply is at
     * position k: `setPitch(p)` asks for the pitch and the angular velocity
     * and sends `PitchCommand` less the x rate; `setRoll(r)` asks for the bank
     * and the angular velocity and sends `RollCommand` less the z rate.
     */
    function ManeuverRequests(m: Maneuver, k: nat): (rs: seq<Request>)
      ensures m == NoManeuver <==> rs == []
      ensures m.PitchTo? ==> |rs| == 3 && rs[2].op == Op.SetPitch
      ensures m.RollTo? ==> |rs| == 3 && rs[2].op == Op.SetBank
    {
      match m
      case NoManeuver => []
      case PitchTo(p) =>
        [Request(Op.GetPitch, Index(0)), Request(GetAngVel, Index(0)),
         Request(Op.SetPitch, Value(PitchCommand(p, host.script(k)) - host.VectorAt(k + 1).x))]
      case RollTo(r) =>
        [Request(Op.GetBank, Index(0)), Request(GetAngVel, Index(0)),
         Request(Op.SetBank, Value(RollCommand(r, host.script(k)) - host.VectorAt(k + 1).z))]
    }

    /** The requests of the issued reversal, if any, appear in the log `sent` where the record says. */
    ghost predicate RecordedIn(rev: Issued, sent: seq<Request>)
    {
      rev.IssuedAt? ==>
        var rs := ManeuverRequests(rev.maneuver, rev.replyAt);
        rev.sentAt + |rs| <= |sent| && sent[rev.sentAt..rev.sentAt + |rs|] == rs
    }

    /** The log only grows, so a recorded reversal stays recorded. */
    lemma {:induction false} RecordedGrows(rev: Issued, sent: seq<Request>, later: seq<Request>)
      requires RecordedIn(rev, sent) && sent <= later
      ensures RecordedIn(rev, later)
    {
      if rev.IssuedAt? {
        var rs := ManeuverRequests(rev.maneuver, rev.replyAt);
        assert later[rev.sentAt..rev.sentAt + |rs|] == sent[rev.sentAt..rev.sentAt + |rs|];
      }
    }

    /** A maneuver of the collision handler, sent through `setPitch` or `setRoll`. */
    method Perform(m: Maneuver)
      requires Valid()
      modifies this, host, valuesRCS, valuesDelta
      ensures host.sent == old(host.sent) + ManeuverRequests(m, old(host.next))
      ensures host.next == old(host.next) + (if m == NoManeuver then 0 else 5)
      ensures m == NoManeuver ==>
        detail == old(detail) && valuesRCS[..] == old(valuesRCS[..]) && valuesDelta[..] == old(valuesDelta[..])
      ensures vessel == old(vessel) && Others() == old(Others())
    {
      match m
      case NoManeuver =>
      case PitchTo(p) => SetPitch(p);
      case RollTo(r) => SetRoll(r);
    }

    /** The angle an alignment loop steers: `atan2(y, x)` for yaw, `atan2(x, y)` for pitch. */
    function AngleOf(which: Axis, p: Vec3): real
    {
      match which
      case YawAxis => bearing(p.y, p.x)
      case PitchAxis => bearing(p.x, p.y)
    }

    /**
     * The speed request of `setYawSpeed(v)` or `setPitchSpeed(v)` when the
     * angular velocity is the reply at k: `v + y` for yaw, `v - x` for pitch.
     */
    function SpeedRequest(which: Axis, v: real, k: nat): Request
    {
      match which
      case YawAxis => Request(Op.SetYaw, Value(v + host.VectorAt(k).y))
      case PitchAxis => Request(Op.SetPitch, Value(v - host.VectorAt(k).x))
    }

    /**
     * The requests of one pass of an alignment loop whose replies start at
     * k: the speed, if the step has one, then the stop and the position.
     */
    function StepRequests(which: Axis, c: Command, k: nat): seq<Request>
    {
      (if c.Speed? then [Request(GetAngVel, Index(0)), SpeedRequest(which, c.value, k)] else [])
      + [Request(Op.StopThrust, Index(0)), Request(GetPos, Index(0))]
    }

    /** The requests of the passes for the errors `errs`, from state s and reply k. */
    function AlignRequests(which: Axis, errs: seq<real>, s: Bracket, k: nat): seq<Request>
    {
      if errs == [] then []
      else
        var r := BangBangStep(errs[0], s);
        StepRequests(which, r.command, k) + AlignRequests(which, errs[1..], r.next, k + StepReplies(r.command))
    }

    /**
     * The first n errors an alignment loop that starts at reply k0 sees: the
     * first is the angle it is given less the target, each later one the
     * angle of the position read at the end of the passes before, less the
     * target, as the host's replies give it.
     */
    ghost function ErrorsFrom(which: Axis, angle: real, target: real, k0: nat, n: nat): (errs: seq<real>)
      ensures |errs| == n
    {
      if n == 0 then []
      else
        var before := ErrorsFrom(which, angle, target, k0, n - 1);
        before + [NextError(which, angle, target, k0, before)]
    }

    /** The error a loop sees after the passes for `before`: the first, or the angle read after the last pass. */
    ghost function NextError(which: Axis, angle: real, target: real, k0: nat, before: seq<real>): real
    {
      if before == [] then angle - target
      else AngleOf(which, host.VectorAt(AlignReplies(before, Unset, k0) - 3)) - target
    }

    /** The errors an alignment loop that starts at reply k0 sees, from the angle it is given. */
    ghost predicate ErrorsRead(which: Axis, errs: seq<real>, angle: real, target: real, k0: nat)
    {
      errs == ErrorsFrom(which, angle, target, k0, |errs|)
    }

    /** The error of one more pass is read where the passes before left off. */
    lemma {:induction false} ErrorsReadSnoc(which: Axis, errs: seq<real>, angle: real, target: real, k0: nat, e: real)
      requires ErrorsRead(which, errs, angle, target, k0) && e == NextError(which, angle, target, k0, errs)
      ensures ErrorsRead(which, errs + [e], angle, target, k0)
    {
      assert ErrorsFrom(which, angle, target, k0, |errs| + 1) == errs + [e];
    }

    /** One more error adds the requests of its own pass. */
    lemma {:induction false} AlignRequestsSnoc(which: Axis, errs: seq<real>, s: Bracket, k: nat, e: real)
      ensures AlignRequests(which, errs + [e], s, k)
           == AlignRequests(which, errs, s, k) + StepRequests(which, BangBangStep(e, Final(errs, s)).command, AlignReplies(errs, s, k))
    {
      if errs != [] {
        assert (errs + [e])[0] == errs[0];
        assert (errs + [e])[1..] == errs[1..] + [e];
        var r := BangBangStep(errs[0], s);
        AlignRequestsSnoc(which, errs[1..], r.next, k + StepReplies(r.command), e);
      }
    }

    /** A pass sends one speed request if its step has a speed, and none otherwise. */
    lemma {:induction false} StepSpeeds(which: Axis, c: Command, k: nat)
      ensures RequestsOf(SpeedOp(which), StepRequests(which, c, k))
           == (if c.Speed? then [SpeedRequest(which, c.value, k)] else [])
    {
      var tail := [Request(Op.StopThrust, Index(0)), Request(GetPos, Index(0))];
      assert RequestsOf(SpeedOp(which), tail) == [] by {
        assert tail[1..] == [Request(GetPos, Index(0))];
        assert tail[1..][1..] == [];
      }
      if c.Speed? {
        var pair := [Request(GetAngVel, Index(0)), SpeedRequest(which, c.value, k)];
        RequestsOfAppend(SpeedOp(which), pair, tail);
        assert pair[1..] == [SpeedRequest(which, c.value, k)];
        assert pair[1..][1..] == [];
      } else {
        assert StepRequests(which, c, k) == tail;
      }
    }

    /** The speed requests for the speeds c, each corrected by the reply at the same place in `at`. */
    function SpeedRequests(which: Axis, c: seq<real>, at: seq<nat>): seq<Request>
      requires |c| == |at|
    {
      if c == [] then [] else [SpeedRequest(which, c[0], at[0])] + SpeedRequests(which, c[1..], at[1..])
    }

    /** The i-th of `SpeedRequests` is the speed request for c[i] and at[i]. */
    lemma {:induction false} SpeedRequestsAt(which: Axis, c: seq<real>, at: seq<nat>)
      requires |c| == |at|
      ensures |SpeedRequests(which, c, at)| == |c|
      ensures forall i | 0 <= i < |c| :: SpeedRequests(which, c, at)[i] == SpeedRequest(which, c[i], at[i])
    {
      if c != [] {
        SpeedRequestsAt(which, c[1..], at[1..]);
      }
    }

    /**
     * The speed requests of an alignment run are, in order, one per speed
     * of `Commands`: that speed corrected by the angular velocity read just
     * before it.
     */
    lemma {:induction false} AlignSendsSpeeds(which: Axis, errs: seq<real>, s: Bracket, k: nat)
      ensures |Commands(errs, s)| == |SpeedReplyAt(errs, s, k)|
      ensures RequestsOf(SpeedOp(which), AlignRequests(which, errs, s, k))
           == SpeedRequests(which, Commands(errs, s), SpeedReplyAt(errs, s, k))
    {
      if errs != [] {
        var op := SpeedOp(which);
        var r := BangBangStep(errs[0], s);
        var k' := k + StepReplies(r.command);
        var rest := AlignRequests(which, errs[1..], r.next, k');
        RequestsOfAppend(op, StepRequests(which, r.command, k), rest);
        StepSpeeds(which, r.command, k);
        AlignSendsSpeeds(which, errs[1..], r.next, k');
        var c', at' := Commands(errs[1..], r.next), SpeedReplyAt(errs[1..], r.next, k');
        assert AlignRequests(which, errs, s, k) == StepRequests(which, r.command, k) + rest;
        if r.command.Speed? {
          var c, at := [r.command.value] + c', [k] + at';
          assert c[1..] == c' && at[1..] == at';
          assert Commands(errs, s) == c && SpeedReplyAt(errs, s, k) == at;
          assert SpeedRequests(which, c, at) == [SpeedRequest(which, r.command.value, k)] + SpeedRequests(which, c', at');
        } else {
          assert Commands(errs, s) == c' && SpeedReplyAt(errs, s, k) == at';
        }
      }
    }

    /**
     * The body of an alignment loop after the bang-bang step: send its speed
     * (if any) to the yaw or pitch thrusters, stop the main thrust, and read
     * the new position and the angle it gives.
     */
    method AlignStep(which: Axis, command: Command) returns (newAngle: real)
      requires Valid()
      modifies this, host, valuesRCS, valuesDelta
      ensures host.sent == old(host.sent) + StepRequests(which, command, old(host.next))
      ensures host.next == old(host.next) + StepReplies(command)
      ensures vessel.currentPosition == host.VectorAt(host.next - 3)
      ensures newAngle == AngleOf(which, vessel.currentPosition)
      ensures vessel == old(vessel).(currentPosition := vessel.currentPosition)
      ensures Others() == old(Others()) && old(host.sent) <= host.sent
    {
      ghost var log, k := host.sent, host.next;
      if command.Speed? {
        match which
        case YawAxis =>
          SetYawSpeed(command.value);
          assert valuesDelta[2] == valuesDelta[..][2];
        case PitchAxis =>
          SetPitchSpeed(command.value);
          assert valuesDelta[1] == valuesDelta[..][1];
      }
      ghost var speedLog := host.sent;
      assert speedLog == log + (if command.Speed? then [Request(GetAngVel, Index(0)), SpeedRequest(which, command.value, k)] else []);
      // stop thrusters to continue ascent, then read the new angle
      var position := StopAndLocate();
      newAngle := AngleOf(which, vessel.currentPosition);
      assert host.sent == speedLog + [Request(Op.StopThrust, Index(0)), Request(GetPos, Index(0))];
    }

    /** Stops the main thrust and reads the vessel's position into `vessel`. */
    method StopAndLocate() returns (position: Vec3)
      modifies this, host
      ensures host.sent == old(host.sent) + [Request(Op.StopThrust, Index(0)), Request(GetPos, Index(0))]
      ensures host.next == old(host.next) + 4 && position == host.VectorAt(old(host.next) + 1)
      ensures vessel == old(vessel).(currentPosition := position) && Others() == old(Others())
    {
      StopThrust();
      detail := Index(0);
      position := host.QueryVector(GetPos, detail);
      vessel := vessel.(currentPosition := position);
    }

    /**
     * One alignment loop of `NavAPMain`: while the angle is more than 0.2
     * from the target, take a bang-bang step, send its speed (if any) to
     * the yaw or pitch thrusters, stop the main thrust and read the new
     * position and angle. `errors` are the errors seen: the first from the
     * angle given, each later one from the position read by the pass before.
     * `speeds` are the speeds sent: the bang-bang commands for those errors,
     * so they alternate in sign, and each goes out in its own speed request,
     * corrected by the angular velocity read just before. The requests are
     * exactly those of the passes. When the loop finishes, the angle is
     * within 0.2.
     */
    method Align(which: Axis, angle: real, target: real, fuel: nat)
      returns (finalAngle: real, done: bool, ghost errors: seq<real>, ghost speeds: seq<real>)
      requires Valid()
      modifies this, host, valuesRCS, valuesDelta
      ensures done ==> Abs(finalAngle - target) <= 0.2
      ensures ErrorsRead(which, errors, angle, target, old(host.next))
      ensures errors == [] ==> finalAngle == angle && vessel == old(vessel)
      ensures errors != [] ==>
        host.next >= 3 && vessel.currentPosition == host.VectorAt(host.next - 3) && finalAngle == AngleOf(which, vessel.currentPosition)
      ensures forall k :: 0 <= k < |errors| ==> Abs(errors[k]) > 0.2
      ensures speeds == Commands(errors, Unset)
      ensures forall k :: 0 <= k < |speeds| - 1 ==> speeds[k + 1] == -speeds[k]
      ensures host.sent == old(host.sent) + AlignRequests(which, errors, Unset, old(host.next))
      ensures host.next == AlignReplies(errors, Unset, old(host.next))
      ensures var sent, at := RequestsOf(SpeedOp(which), AlignRequests(which, errors, Unset, old(host.next))), SpeedReplyAt(errors, Unset, old(host.next));
        && |sent| == |speeds| == |at|
        && forall i | 0 <= i < |speeds| :: sent[i] == SpeedRequest(which, speeds[i], at[i])
      ensures vessel == old(vessel).(currentPosition := vessel.currentPosition)
      ensures Others() == old(Others()) && old(host.sent) <= host.sent
    {
      ghost var k0, log0 := host.next, host.sent;
      var s;
      finalAngle, s, errors, speeds := AlignLoop(which, angle, target, fuel);
      TraceSpeeds(which, angle, target, k0, log0, errors, speeds, s, finalAngle, host.sent, host.next, vessel.currentPosition);
      done := Abs(finalAngle - target) <= 0.2;
    }

    /** The loop of `Align`, which keeps the trace of its passes and leaves the rest of the state alone. */
    method AlignLoop(which: Axis, angle: real, target: real, fuel: nat)
      returns (finalAngle: real, s: Bracket, ghost errors: seq<real>, ghost speeds: seq<real>)
      requires Valid()
      modifies this, host, valuesRCS, valuesDelta
      ensures AlignTrace(which, angle, target, old(host.next), old(host.sent), errors, speeds, s, finalAngle)
      ensures errors == [] ==> vessel == old(vessel)
      ensures vessel == old(vessel).(currentPosition := vessel.currentPosition)
      ensures Others() == old(Others())
    {
      ghost var k0, log0 := host.next, host.sent;
      finalAngle := angle;
      errors, speeds := [], [];
      s := Unset;
      var fuelLeft := fuel;
      while Abs(finalAngle - target) > 0.2
        invariant AlignTrace(which, angle, target, k0, log0, errors, speeds, s, finalAngle)
        invariant errors == [] ==> vessel == old(vessel)
        invariant vessel == old(vessel).(currentPosition := vessel.currentPosition)
        invariant Others() == old(Others())
        decreases fuelLeft
      {
        if fuelLeft == 0 {
          break;
        }
        fuelLeft := fuelLeft - 1;
        finalAngle, s, errors, speeds := AlignPass(which, angle, target, finalAngle, s, errors, speeds, k0, log0);
      }
    }

    /** The speeds of a trace alternate in sign and go out one per speed request, in order. */
    lemma {:induction false} TraceSpeeds(which: Axis, angle: real, target: real, k0: nat, log0: seq<Request>,
                                         errors: seq<real>, speeds: seq<real>, s: Bracket, finalAngle: real,
                                         sent: seq<Request>, next: nat, pos: Vec3)
      requires TraceOf(which, angle, target, k0, log0, errors, speeds, s, finalAngle, sent, next, pos)
      ensures forall k :: 0 <= k < |speeds| - 1 ==> speeds[k + 1] == -speeds[k]
      ensures var sentSpeeds, at := RequestsOf(SpeedOp(which), AlignRequests(which, errors, Unset, k0)), SpeedReplyAt(errors, Unset, k0);
        && |sentSpeeds| == |speeds| == |at|
        && forall i | 0 <= i < |speeds| :: sentSpeeds[i] == SpeedRequest(which, speeds[i], at[i])
    {
      CommandsAlternate(errors, Unset);
      AlignSendsSpeeds(which, errors, Unset, k0);
      SpeedRequestsAt(which, speeds, SpeedReplyAt(errors, Unset, k0));
    }

    /**
     * What an alignment loop that started at reply k0 with the log `log0`
     * keeps after the passes for `errors`: the bracketing state and the
     * speeds are those of the bang-bang steps, the errors were read where
     * the passes left off, the angle is the last one read (the given one
     * before any pass), and the log holds exactly the passes' requests.
     */
    ghost predicate AlignTrace(which: Axis, angle: real, target: real, k0: nat, log0: seq<Request>,
                               errors: seq<real>, speeds: seq<real>, s: Bracket, finalAngle: real)
      reads this, host
    {
      TraceOf(which, angle, target, k0, log0, errors, speeds, s, finalAngle, host.sent, host.next, vessel.currentPosition)
    }

    /** `AlignTrace` for the log `sent`, the reply pointer `next` and the vessel position `pos`. */
    ghost predicate TraceOf(which: Axis, angle: real, target: real, k0: nat, log0: seq<Request>,
                            errors: seq<real>, speeds: seq<real>, s: Bracket, finalAngle: real,
                            sent: seq<Request>, next: nat, pos: Vec3)
    {
      && Bracketed(errors, speeds, s)
      && ErrorsRead(which, errors, angle, target, k0)
      && LastRead(which, errors, angle, finalAngle, next, pos)
      && Logged(which, k0, log0, errors, sent, next)
    }

    /** The angle last read: the one given before any pass, else that of the position the last pass read. */
    ghost predicate LastRead(which: Axis, errors: seq<real>, angle: real, finalAngle: real, next: nat, pos: Vec3)
    {
      && (errors == [] ==> finalAngle == angle)
      && (errors != [] ==> next >= 3 && pos == host.VectorAt(next - 3) && finalAngle == AngleOf(which, pos))
    }

    /** The log and the reply pointer after the passes for `errors`, from the log `log0` and reply k0. */
    ghost predicate Logged(which: Axis, k0: nat, log0: seq<Request>, errors: seq<real>, sent: seq<Request>, next: nat)
    {
      sent == log0 + AlignRequests(which, errors, Unset, k0) && next == AlignReplies(errors, Unset, k0)
    }

    /** One more pass adds its own requests and replies. */
    lemma {:induction false} LoggedSnoc(which: Axis, k0: nat, log0: seq<Request>, errors: seq<real>, s: Bracket, e: real,
                                        sent: seq<Request>, next: nat)
      requires Logged(which, k0, log0, errors, sent, next) && s == Final(errors, Unset)
      ensures var step := BangBangStep(e, s);
        Logged(which, k0, log0, errors + [e], sent + StepRequests(which, step.command, next), next + StepReplies(step.command))
    {
      var pass := StepRequests(which, BangBangStep(e, s).command, next);
      AlignRequestsSnoc(which, errors, Unset, k0, e);
      AlignRepliesSnoc(errors, Unset, k0, e);
      assert sent + pass == log0 + (AlignRequests(which, errors, Unset, k0) + pass);
    }

    /**
     * A pass keeps the trace: its error e is the last angle read, and it
     * adds its own requests and replies, after which the angle is read from
     * the position the pass asked for last.
     */
    lemma {:induction false} TraceSnoc(which: Axis, angle: real, target: real, k0: nat, log0: seq<Request>,
                    errors: seq<real>, speeds: seq<real>, s: Bracket, current: real,
                    sent: seq<Request>, next: nat, pos: Vec3,
                    e: real, step: Step, sent': seq<Request>, next': nat, pos': Vec3, angle': real)
      requires Abs(current - target) > 0.2
      requires TraceOf(which, angle, target, k0, log0, errors, speeds, s, current, sent, next, pos)
      requires e == current - target && step == BangBangStep(e, s)
      requires sent' == sent + StepRequests(which, step.command, next) && next' == next + StepReplies(step.command)
      requires pos' == host.VectorAt(next' - 3) && angle' == AngleOf(which, pos')
      ensures TraceOf(which, angle, target, k0, log0, errors + [e], speeds + Emitted(step), step.next, angle', sent', next', pos')
    {
      BracketedSnoc(errors, speeds, s, e);
      ErrorsReadSnoc(which, errors, angle, target, k0, e);
      LoggedSnoc(which, k0, log0, errors, s, e, sent, next);
    }

    /** One pass of an alignment loop whose angle is still more than 0.2 from the target. */
    method AlignPass(which: Axis, angle: real, target: real, current: real, s: Bracket,
                     ghost errors: seq<real>, ghost speeds: seq<real>, ghost k0: nat, ghost log0: seq<Request>)
      returns (newAngle: real, s': Bracket, ghost errors': seq<real>, ghost speeds': seq<real>)
      requires Valid() && Abs(current - target) > 0.2
      requires AlignTrace(which, angle, target, k0, log0, errors, speeds, s, current)
      modifies this, host, valuesRCS, valuesDelta
      ensures AlignTrace(which, angle, target, k0, log0, errors', speeds', s', newAngle)
      ensures errors' == errors + [current - target]
      ensures vessel == old(vessel).(currentPosition := vessel.currentPosition)
      ensures Others() == old(Others())
    {
      var e := current - target;
      var step := BangBangStep(e, s);
      errors', speeds' := errors + [e], speeds + Emitted(step);
      s' := step.next;
      ghost var sent, next, pos := host.sent, host.next, vessel.currentPosition;
      newAngle := AlignStep(which, step.command);
      TraceSnoc(which, angle, target, k0, log0, errors, speeds, s, current, sent, next, pos,
                e, step, host.sent, host.next, vessel.currentPosition, newAngle);
    }

    /**
     * `collisionHandler`. The collision coordinate is the handler's own
     * uninitialised local (`findCollisionCoord` gets a copy), so the
     * far-away test reads `stale.collisionCoord`. Otherwise the handler
     * maneuvers away along the dominant axis and keeps probing with fresh
     * rays (Avoid). It returns only on a far-away collision, or when a fresh
     * ray's `intersect` reports no hit, which the newer intersector does
     * exactly when the vessel has left the obstacle's box.
     */
    method CollisionHandler(collisionCheck: RayBoxSoftware.RayBox, nearObjPos: Vec3, stale: Stale, fuel: nat)
      returns (exit: HandlerExit, ghost reversals: nat, ghost rev: Issued)
      requires Valid() && stale.WellFormed()
      modifies this, host, valuesRCS, valuesDelta, collisionCheck
      ensures exit == FarAway <==>
        SquaredLength(Sub(stale.collisionCoord, old(vessel.currentPosition))) > 1000000000000000000.0
      ensures exit == FarAway ==> host.sent == old(host.sent) && vessel == old(vessel) && Others() == old(Others())
      ensures exit == Escaped ==> !InBox(Box(nearObjPos, objSize * 2.0, objSize * 2.0), vessel.currentPosition)
      ensures reversals <= 1
      ensures exit != FarAway ==>
        var distIndex := FirstMax(Magnitudes(Sub(nearObjPos, old(vessel.currentPosition))));
        var opening := old(host.sent) + ManeuverRequests(InitialManeuver(distIndex), old(host.next));
        && opening <= host.sent
        && ProbesOrReversal(host.sent, |opening|, rev)
        && (completedRCSOperations == InitialTag(distIndex, old(completedRCSOperations)) || completedRCSOperations == 0)
        && (reversals == 1 <==> rev.IssuedAt?)
        && (rev.IssuedAt? ==>
              && rev.maneuver == Reversal(InitialTag(distIndex, old(completedRCSOperations)))
              && (distIndex < 2 ==> rev.maneuver == Opposite(InitialManeuver(distIndex)))
              && rev.sentAt >= |opening| && RecordedIn(rev, host.sent)
              && completedRCSOperations == 0)
      ensures Progress() == old(Progress()) && old(host.sent) <= host.sent
    {
      // Get the coordinates of the collision
      collisionCheck.FindCollisionCoord(collisionCheck.vesselRay, stale.quadrant, stale.plane);
      var collisionCoord := stale.collisionCoord;
      // Find how far the collision is
      var collisionVector := Difference(collisionCoord, vessel.currentPosition);
      var collisionDistance := SquaredLength(collisionVector);
      if collisionDistance > 1000000000000000000.0 {
        return FarAway, 0, NotIssued;
      }
      // Work out which edge boundary of the object is closest to escape from
      var distFromCentre := Sub(nearObjPos, vessel.currentPosition);
      var distIndex := DominantAxis(distFromCentre);
      Perform(InitialManeuver(distIndex));
      completedRCSOperations := InitialTag(distIndex, completedRCSOperations);
      exit, reversals, rev := Avoid(nearObjPos, stale, fuel);
      if distIndex < 2 {
        ReversalUndoesInitial(distIndex, old(completedRCSOperations));
      }
    }

    /** The loop of `collisionVector.data[i] = collisionCoord.data[i] - currentPosition.data[i]`. */
    static method Difference(a: Vec3, b: Vec3) returns (d: Vec3)
      ensures d == Sub(a, b)
    {
      d := Zero;
      for i := 0 to 3
        invariant forall k :: 0 <= k < i ==> d.At(k) == a.At(k) - b.At(k)
      {
        d := d.With(i, a.At(i) - b.At(i));
      }
      ComponentsDetermine(d, Sub(a, b));
    }

    /**
     * The `while (pathCollision)` loop of `collisionHandler`: a fresh ray
     * object on the obstacle, a fresh ray from the vessel's new position,
     * and either the exit (no hit) or the inner loop KeepCourse.
     */
    method Avoid(nearObjPos: Vec3, stale: Stale, fuel: nat)
      returns (exit: HandlerExit, ghost reversals: nat, ghost rev: Issued)
      requires Valid() && stale.WellFormed()
      modifies this, host, valuesRCS, valuesDelta
      ensures exit != FarAway && reversals <= 1
      ensures reversals == 1 <==> rev.IssuedAt?
      ensures rev.IssuedAt? ==>
        && rev.maneuver == Reversal(old(completedRCSOperations)) && rev.sentAt >= |old(host.sent)| && RecordedIn(rev, host.sent)
        && completedRCSOperations == 0
      ensures ProbesOrReversal(host.sent, |old(host.sent)|, rev)
      ensures exit == Escaped ==> !InBox(Box(nearObjPos, objSize * 2.0, objSize * 2.0), vessel.currentPosition)
      ensures completedRCSOperations == old(completedRCSOperations) || completedRCSOperations == 0
      ensures Progress() == old(Progress()) && old(host.sent) <= host.sent
    {
      reversals, rev := 0, NotIssued;
      ghost var initialTag, log0 := completedRCSOperations, |host.sent|;
      var fuelLeft := fuel;
      while true
        invariant AvoidState(reversals, rev, initialTag, log0)
        invariant Progress() == old(Progress()) && old(host.sent) <= host.sent
        decreases fuelLeft
      {
        if fuelLeft == 0 {
          return HandlerOutOfFuel, reversals, rev;
        }
        fuelLeft := fuelLeft - 1;
        var escaped, outOfFuel;
        escaped, outOfFuel, fuelLeft, reversals, rev := AvoidPass(nearObjPos, stale, fuelLeft, reversals, rev, initialTag, log0);
        if escaped {
          return Escaped, reversals, rev;
        }
        if outOfFuel {
          return HandlerOutOfFuel, reversals, rev;
        }
      }
    }

    /**
     * What the outer loop of the collision handler keeps, relative to the
     * tag `tag0` and the log length `log0` at its start: at most one
     * reversal, after which the tag no longer reverses and is 0; the tag is
     * otherwise `tag0`; a reversal on record is `Reversal(tag0)` with its
     * requests in the log after `log0`; every other request after `log0`
     * is the `GET_POS` of a fresh ray.
     */
    ghost predicate AvoidState(reversals: nat, rev: Issued, tag0: int, log0: nat)
      reads this, host
    {
      && reversals <= 1 && (reversals == 1 ==> Reversal(completedRCSOperations) == NoManeuver)
      && (reversals == 1 <==> rev.IssuedAt?)
      && (rev.IssuedAt? ==> rev.maneuver == Reversal(tag0) && rev.sentAt >= log0 && RecordedIn(rev, host.sent))
      && (completedRCSOperations == tag0 || completedRCSOperations == 0)
      && (rev.IssuedAt? ==> completedRCSOperations == 0)
      && log0 <= |host.sent| && ProbesOrReversal(host.sent, log0, rev)
    }

    /**
     * One pass of the `while (pathCollision)` loop: a fresh ray object on
     * the obstacle and a fresh ray from the vessel's position; without a
     * hit the vessel has escaped the box, otherwise the inner loop runs.
     */
    method AvoidPass(nearObjPos: Vec3, stale: Stale, fuel: nat,
                     ghost reversals: nat, ghost rev: Issued, ghost tag0: int, ghost log0: nat)
      returns (escaped: bool, outOfFuel: bool, fuelLeft: nat, ghost reversals': nat, ghost rev': Issued)
      requires Valid() && stale.WellFormed() && AvoidState(reversals, rev, tag0, log0)
      modifies this, host, valuesRCS, valuesDelta
      ensures AvoidState(reversals', rev', tag0, log0) && fuelLeft <= fuel
      ensures escaped ==> !InBox(Box(nearObjPos, objSize * 2.0, objSize * 2.0), vessel.currentPosition)
      ensures Progress() == old(Progress()) && old(host.sent) <= host.sent
    {
      escaped, outOfFuel, fuelLeft, reversals', rev' := false, false, fuel, reversals, rev;
      ghost var logBefore := host.sent;
      // Create new ray collider object
      var newRay := new RayBoxSoftware.RayBox(nearObjPos, objSize);
      SetupNewRay(newRay, vessel.currentPosition);
      RecordedGrows(rev, logBefore, host.sent);
      ProbesJoin(logBefore, host.sent, log0, rev, rev);
      ghost var before := RayBoxSoftware.Cache(newRay.collisionCoord, newRay.isCoordFound);
      var ifNewCollide := newRay.Intersect(newRay.vesselRay, stale.hit);
      if !ifNewCollide {
        // The current path no longer results in a collision
        RayBoxSoftware.HitIffOriginInBox(newRay.box1, newRay.vesselRay, stale.hit, before);
        escaped := true;
        return;
      }
      // Get collision coordinate; `newCollide` is an uninitialised local
      newRay.FindCollisionCoord(newRay.vesselRay, stale.quadrant, stale.plane);
      var newCollide := stale.newCollide;
      var nextDistance := SquaredLength(Sub(newCollide, newRay.vesselRay.direction));
      ghost var logMid := host.sent;
      outOfFuel, fuelLeft, reversals', rev' := KeepCourse(newRay, newCollide, stale, fuel, nextDistance, reversals, rev);
      if rev' == rev {
        RecordedGrows(rev, logMid, host.sent);
      }
      ProbesJoin(logMid, host.sent, log0, rev, rev');
    }

    /**
     * What a collision handler's loops keep about reversals, relative to the
     * tag `tag0` and the log length `log0` at their start and the record
     * `rev0` handed in: at most one reversal, after which the tag no longer
     * reverses; the tag is `tag0` or 0, and 0 once a reversal is on record;
     * a reversal issued since is `Reversal(tag0)` and its requests are in
     * the log after `log0`; and every other request after `log0` is the
     * `GET_POS` of a fresh ray.
     */
    ghost predicate ReversalState(reversals: nat, rev: Issued, rev0: Issued, tag0: int, log0: nat)
      reads this, host
    {
      && reversals <= 1 && (reversals == 1 ==> Reversal(completedRCSOperations) == NoManeuver)
      && (reversals == 1 <==> rev.IssuedAt?)
      && (completedRCSOperations == tag0 || completedRCSOperations == 0)
      && (rev.IssuedAt? ==> completedRCSOperations == 0)
      && ProbesOrReversal(host.sent, log0, rev)
      && (rev == rev0 || (
            && rev0 == NotIssued && rev.IssuedAt? && rev.maneuver == Reversal(tag0)
            && rev.maneuver != NoManeuver && rev.sentAt >= log0 && RecordedIn(rev, host.sent)))
    }

    /**
     * The `switch (completedRCSOperations)` when the distance shrinks: the
     * maneuver the tag records is reversed (tag 3: `setPitch(-0.08)`, tag 5:
     * `setRoll(-0.08)`) and the tag becomes 0; any other tag does nothing.
     */
    method Revert(ghost reversals: nat, ghost rev: Issued, ghost rev0: Issued, ghost tag0: int, ghost log0: nat)
      returns (ghost reversalsAfter: nat, ghost revAfter: Issued)
      requires Valid() && ReversalState(reversals, rev, rev0, tag0, log0) && log0 <= |host.sent|
      modifies this, host, valuesRCS, valuesDelta
      ensures ReversalState(reversalsAfter, revAfter, rev0, tag0, log0)
      ensures host.sent == old(host.sent) + ManeuverRequests(Reversal(old(completedRCSOperations)), old(host.next))
      ensures completedRCSOperations == TagAfterReversal(old(completedRCSOperations))
      ensures Progress() == old(Progress()) && vessel == old(vessel)
    {
      reversalsAfter, revAfter := reversals, rev;
      // Revert the thrusters to move in the opposite direction
      var m := Reversal(completedRCSOperations);
      ghost var sentBefore, replyBefore := host.sent, host.next;
      Perform(m);
      if m != NoManeuver {
        reversalsAfter := reversalsAfter + 1;
        revAfter := IssuedAt(m, |sentBefore|, replyBefore);
        assert host.sent[|sentBefore|..|sentBefore| + 3] == ManeuverRequests(m, replyBefore);
        forall k | log0 <= k < |host.sent|
          ensures host.sent[k] == Request(GetPos, Index(0)) || (revAfter.sentAt <= k < revAfter.sentAt + 3)
        {
          if k < |sentBefore| {
            assert host.sent[k] == sentBefore[k];
          }
        }
      }
      completedRCSOperations := TagAfterReversal(completedRCSOperations);
    }

    /**
     * The start of a pass of the inner loop: a fresh ray from the vessel's
     * new position, the `intersect` test and, on a hit, the collision
     * coordinate and the new distance (the old one when there is no hit).
     */
    method Reprobe(newRay: RayBoxSoftware.RayBox, newCollide: Vec3, stale: Stale, distance: real)
      returns (ifNewCollide: bool, nextDistance: real)
      requires stale.WellFormed()
      modifies this, host, newRay
      ensures ifNewCollide ==> nextDistance == SquaredLength(Sub(newCollide, newRay.vesselRay.direction))
      ensures !ifNewCollide ==> nextDistance == distance
      ensures Others() == old(Others()) && host.sent == old(host.sent) + [Request(GetPos, Index(0))]
    {
      nextDistance := distance;
      SetupNewRay(newRay, vessel.currentPosition);
      ifNewCollide := newRay.Intersect(newRay.vesselRay, stale.hit);
      if ifNewCollide {
        // Get new collision coordinate
        newRay.FindCollisionCoord(newRay.vesselRay, stale.quadrant, stale.plane);
        nextDistance := SquaredLength(Sub(newCollide, newRay.vesselRay.direction));
      }
    }

    /**
     * The inner `while (ifNewCollide)` loop: probe again from the new
     * position; while still on a collision course, compare the distances
     * and, when the distance shrinks, reverse the maneuver the tag records
     * (Revert). Once a reversal was issued the tag is 0 and no further one is.
     */
    method KeepCourse(newRay: RayBoxSoftware.RayBox, newCollide: Vec3, stale: Stale, fuel: nat,
                      distance: real, ghost reversals: nat, ghost rev: Issued)
      returns (outOfFuel: bool, fuelLeft: nat, ghost reversalsAfter: nat, ghost revAfter: Issued)
      requires Valid() && stale.WellFormed()
      requires reversals <= 1 && (reversals == 1 ==> Reversal(completedRCSOperations) == NoManeuver)
      requires reversals == 1 <==> rev.IssuedAt?
      requires rev.IssuedAt? ==> completedRCSOperations == 0
      modifies this, host, valuesRCS, valuesDelta, newRay
      ensures fuelLeft <= fuel
      ensures ReversalState(reversalsAfter, revAfter, rev, old(completedRCSOperations), |old(host.sent)|)
      ensures Progress() == old(Progress()) && old(host.sent) <= host.sent
    {
      ghost var tag0, log0 := completedRCSOperations, |host.sent|;
      reversalsAfter, revAfter := reversals, rev;
      fuelLeft := fuel;
      var nextDistance := distance;
      var ifNewCollide := true;
      while ifNewCollide
        invariant fuelLeft <= fuel
        invariant ReversalState(reversalsAfter, revAfter, rev, tag0, log0)
        invariant Progress() == old(Progress()) && old(host.sent) <= host.sent && log0 <= |host.sent|
        decreases fuelLeft
      {
        if fuelLeft == 0 {
          return true, fuelLeft, reversalsAfter, revAfter;
        }
        fuelLeft := fuelLeft - 1;
        ghost var logBefore := host.sent;
        // Store the old distance and get a new one
        var prevDistance := nextDistance;
        ifNewCollide, nextDistance := Reprobe(newRay, newCollide, stale, nextDistance);
        if revAfter != rev {
          RecordedGrows(revAfter, logBefore, host.sent);
        }
        ProbesJoin(logBefore, host.sent, log0, revAfter, revAfter);
        if !ifNewCollide {
          break;
        }
        if nextDistance < prevDistance {
          reversalsAfter, revAfter := Revert(reversalsAfter, revAfter, rev, tag0, log0);
        }
      }
      outOfFuel := false;
    }

    /**
     * `NavAPMain`. Reads the vessel's position and starts the main thrust,
     * then, until the vessel passes the arrival test as written, scans the
     * objects for collisions (ScanObjects) and steers toward the destination
     * (Steer). It returns at once when an object is the vessel itself, and
     * never leaves the fine-trim loop once entered (Holding).
     */
    method NavAPMain(stale: Stale, fuel: nat) returns (outcome: MainOutcome)
      requires Valid() && stale.WellFormed()
      modifies this, host, valuesRCS, valuesDelta
      ensures outcome == Arrived ==> ArrivedAsWritten(vessel.currentPosition, dest.currentPosition)
      ensures outcome.SelfDetected? ==>
        && outcome.index >= 0 && host.next >= 1 && |host.sent| >= 1
        && host.sent[|host.sent| - 1] == Request(IsVessel, Index(outcome.index))
        && Trunc(host.script(host.next - 1)) == 1
      ensures outcome == Holding ==> onCourse && countIterations >= old(countIterations) + 1.0
      ensures dest == old(dest)
      ensures |host.sent| >= |old(host.sent)| + 2
      ensures host.sent[..|old(host.sent)| + 2] == old(host.sent) + [Request(GetPos, Index(0)), Request(SetThrust, Index(1))]
    {
      // get the position of the vessel
      detail := Index(0);
      var position := host.QueryVector(GetPos, detail);
      vessel := vessel.(currentPosition := position);
      // Set the main thrusters
      detail := Index(1);
      var thrustCheck := host.QueryInt(SetThrust, detail);
      ghost var opening := host.sent;
      assert opening == old(host.sent) + [Request(GetPos, Index(0)), Request(SetThrust, Index(1))];
      var fuelLeft := fuel;
      while !ArrivedAsWritten(vessel.currentPosition, dest.currentPosition)
        invariant opening <= host.sent && dest == old(dest)
        invariant countIterations >= old(countIterations)
        decreases fuelLeft
      {
        if fuelLeft == 0 {
          return OutOfFuel;
        }
        fuelLeft := fuelLeft - 1;
        var exit := MainPass(stale, fuel);
        if exit.Exit? {
          return exit.outcome;
        }
      }
      return Arrived;
    }

    /**
     * One pass of the navigation loop: count the objects, scan them, then
     * steer. It ends `NavAPMain` when the scan finds the vessel itself or
     * when the fine-trim loop would hold, and never with `Arrived`.
     */
    method MainPass(stale: Stale, fuel: nat) returns (exit: PassExit)
      requires Valid() && stale.WellFormed()
      modifies this, host, valuesRCS, valuesDelta
      ensures exit != Exit(Arrived)
      ensures exit.Exit? && exit.outcome.SelfDetected? ==>
        && exit.outcome.index >= 0 && host.next >= 1 && |host.sent| >= 1
        && host.sent[|host.sent| - 1] == Request(IsVessel, Index(exit.outcome.index))
        && Trunc(host.script(host.next - 1)) == 1
      ensures exit == Exit(Holding) ==> onCourse && countIterations >= old(countIterations) + 1.0
      ensures countIterations >= old(countIterations) && dest == old(dest) && old(host.sent) <= host.sent
    {
      // count the objects currently in the rendered simulation area
      var numObj := host.QueryInt(GetObjCount, detail);
      var scan := ScanObjects(numObj, stale, fuel);
      match scan
      case Self(index) =>
        return Exit(SelfDetected(index));
      case ScanOutOfFuel =>
        return Exit(OutOfFuel);
      case Scanned =>
      var holding, outOfFuel := Steer(fuel);
      if outOfFuel {
        return Exit(OutOfFuel);
      }
      if holding {
        return Exit(Holding);
      }
      return Continue;
    }

    /**
     * The `for (obj_it = 0; obj_it < num_obj; obj_it++)` loop over the
     * objects the simulator reports: a negative count scans nothing.
     */
    method ScanObjects(numObj: int, stale: Stale, fuel: nat) returns (scan: ScanExit)
      requires Valid() && stale.WellFormed()
      modifies this, host, valuesRCS, valuesDelta
      ensures scan.Self? ==>
        && 0 <= scan.index < numObj && host.next >= 1 && |host.sent| >= 1
        && host.sent[|host.sent| - 1] == Request(IsVessel, Index(scan.index))
        && Trunc(host.script(host.next - 1)) == 1
      ensures numObj <= 0 ==> scan == Scanned && host.sent == old(host.sent) && vessel == old(vessel) && Others() == old(Others())
      ensures dest == old(dest) && onCourse == old(onCourse) && countIterations == old(countIterations)
      ensures old(host.sent) <= host.sent
    {
      var objIt := 0;
      while objIt < numObj
        invariant dest == old(dest) && onCourse == old(onCourse) && countIterations == old(countIterations)
        invariant old(host.sent) <= host.sent
        invariant 0 <= objIt && (numObj <= 0 ==> objIt == 0)
        invariant objIt == 0 ==> host.sent == old(host.sent) && vessel == old(vessel) && Others() == old(Others())
        decreases numObj - objIt
      {
        var check := CheckObject(objIt, stale, fuel);
        match check
        case Self(index) =>
          return check;
        case ScanOutOfFuel =>
          return check;
        case Scanned =>
        objIt := objIt + 1;
      }
      return Scanned;
    }

    /**
     * One pass of the object loop for object `objIt`. When the simulator
     * says the object is the vessel itself, nothing else is asked. Otherwise
     * the object's position, the vessel's new position and the object's
     * size are read, in that order, and `isCollision` records whether the
     * ray from the new position along the last step hits the object's box,
     * which for the newer intersector means the vessel is in it; a hit runs
     * the collision handler.
     */
    method CheckObject(objIt: int, stale: Stale, fuel: nat) returns (check: ScanExit)
      requires Valid() && stale.WellFormed()
      modifies this, host, valuesRCS, valuesDelta
      ensures check.Self? <==> Trunc(host.script(old(host.next))) == 1
      ensures check.Self? ==>
        && check.index == objIt
        && host.next == old(host.next) + 1
        && host.sent == old(host.sent) + [Request(IsVessel, Index(objIt))]
        && vessel == old(vessel) && Others() == old(Others())
      ensures check.Scanned? ==>
        var replies := old(host.next);
        && |host.sent| >= |old(host.sent)| + 4
        && host.sent[..|old(host.sent)| + 4] == old(host.sent) +
             [Request(IsVessel, Index(objIt)), Request(GetPos, Index(objIt)), Request(GetPos, Index(0)), Request(GetSize, Index(objIt))]
        && objSize == host.script(replies + 7)
        && (isCollision <==> InBox(Box(host.VectorAt(replies + 1), objSize * 2.0, objSize * 2.0), host.VectorAt(replies + 4)))
      ensures dest == old(dest) && onCourse == old(onCourse) && countIterations == old(countIterations)
      ensures old(host.sent) <= host.sent
    {
      detail := Index(objIt);
      var isSim := host.QueryInt(IsVessel, detail);
      if isSim == 1 {
        return Self(objIt);
      }
      ghost var opening := host.sent;
      var nearObjPos, outOfFuel := ProbeObject(objIt, stale, fuel);
      ghost var probed := opening + [Request(GetPos, Index(objIt)), Request(GetPos, Index(0)), Request(GetSize, Index(objIt))];
      assert probed <= host.sent && host.sent[..|probed|] == probed;
      check := if outOfFuel then ScanOutOfFuel else Scanned;
    }

    /**
     * The part of an object pass after the self-check, up to and including
     * the collision handler.
     */
    method ProbeObject(objIt: int, stale: Stale, fuel: nat) returns (nearObjPos: Vec3, outOfFuel: bool)
      requires Valid() && stale.WellFormed()
      modifies this, host, valuesRCS, valuesDelta
      ensures var replies := old(host.next);
        && old(host.sent) + [Request(GetPos, Index(objIt)), Request(GetPos, Index(0)), Request(GetSize, Index(objIt))] <= host.sent
        && nearObjPos == host.VectorAt(replies)
        && objSize == host.script(replies + 6)
        && (isCollision <==> InBox(Box(nearObjPos, objSize * 2.0, objSize * 2.0), host.VectorAt(replies + 3)))
      ensures dest == old(dest) && onCourse == old(onCourse) && countIterations == old(countIterations)
      ensures old(host.sent) <= host.sent
    {
      var position;
      nearObjPos, position := ReadObject(objIt);
      ghost var opening := host.sent;
      var collisionCheck := new RayBoxSoftware.RayBox(nearObjPos, objSize);
      // Generate a Ray from the vessel's position along the direction vector
      collisionCheck.vesselRay := Ray(Sub(vessel.currentPosition, vessel.previousPosition), vessel.currentPosition);
      ghost var before := RayBoxSoftware.Cache(collisionCheck.collisionCoord, collisionCheck.isCoordFound);
      var ifCollide := collisionCheck.Intersect(collisionCheck.vesselRay, stale.hit);
      RayBoxSoftware.HitIffOriginInBox(collisionCheck.box1, collisionCheck.vesselRay, stale.hit, before);
      isCollision := ifCollide;
      outOfFuel := HandleHit(collisionCheck, nearObjPos, stale, fuel, ifCollide);
    }

    /** `if (ifCollide) collisionHandler(...)`: only a hit starts the handler, which may run out of fuel. */
    method HandleHit(collisionCheck: RayBoxSoftware.RayBox, nearObjPos: Vec3, stale: Stale, fuel: nat, ifCollide: bool)
      returns (outOfFuel: bool)
      requires Valid() && stale.WellFormed()
      modifies this, host, valuesRCS, valuesDelta, collisionCheck
      ensures !ifCollide ==> !outOfFuel && host.sent == old(host.sent) && host.next == old(host.next)
      ensures Progress() == old(Progress()) && old(host.sent) <= host.sent
    {
      outOfFuel := false;
      if ifCollide {
        var exit, reversals, rev := CollisionHandler(collisionCheck, nearObjPos, stale, fuel);
        outOfFuel := exit == HandlerOutOfFuel;
      }
    }

    /**
     * The queries of an object pass: the object's position, then the
     * vessel's (the old one kept as previous, axis by axis), then the
     * object's size into `objSize`.
     */
    method ReadObject(objIt: int) returns (nearObjPos: Vec3, position: Vec3)
      modifies this, host
      ensures nearObjPos == host.VectorAt(old(host.next)) && position == host.VectorAt(old(host.next) + 3)
      ensures vessel == old(vessel).(previousPosition := old(vessel.currentPosition), currentPosition := position)
      ensures objSize == host.script(old(host.next) + 6)
      ensures host.next == old(host.next) + 7
      ensures host.sent == old(host.sent) +
        [Request(GetPos, Index(objIt)), Request(GetPos, Index(0)), Request(GetSize, Index(objIt))]
      ensures dest == old(dest) && onCourse == old(onCourse) && countIterations == old(countIterations)
      ensures completedRCSOperations == old(completedRCSOperations) && isCollision == old(isCollision)
    {
      // Find the global position of the vessel and possible collision object
      detail := Index(objIt);
      nearObjPos := host.QueryVector(GetPos, detail);
      // Get the new current position and store the old
      for i := 0 to 3
        invariant forall k :: 0 <= k < i ==> vessel.previousPosition.At(k) == vessel.currentPosition.At(k)
        invariant vessel == old(vessel).(previousPosition := vessel.previousPosition)
        invariant Others() == old(Others()) && detail == Index(objIt)
        invariant host.sent == old(host.sent) + [Request(GetPos, Index(objIt))]
        invariant host.next == old(host.next) + 3
      {
        vessel := vessel.(previousPosition := vessel.previousPosition.With(i, vessel.currentPosition.At(i)));
      }
      ComponentsDetermine(vessel.previousPosition, vessel.currentPosition);
      detail := Index(0);
      position := host.QueryVector(GetPos, detail);
      vessel := vessel.(currentPosition := position);
      detail := Index(objIt);
      objSize := host.QueryReal(GetSize, detail);
    }

    /**
     * The yaw and then the pitch alignment loop of a pass, with the stop of
     * the main thrust between them; both loops are skipped once on course.
     * `done` is false when a loop ran out of fuel.
     */
    method AlignAxes(ax: real, ay: real, axDest: real, ayDest: real, fuel: nat)
      returns (axAfter: real, ayAfter: real, done: bool,
               ghost pitched: bool, ghost yawErrors: seq<real>, ghost pitchErrors: seq<real>)
      requires Valid()
      modifies this, host, valuesRCS, valuesDelta
      ensures Others() == old(Others()) && old(host.sent) <= host.sent
      ensures old(onCourse) ==>
        && done && axAfter == ax && ayAfter == ay && vessel == old(vessel)
        && host.next == old(host.next) + 1 && host.sent == old(host.sent) + [Request(Op.StopThrust, Index(0))]
      ensures !old(onCourse) ==>
        AxesRun(ax, ay, axDest, ayDest, old(host.next), old(host.sent), axAfter, ayAfter, done, pitched, yawErrors, pitchErrors, host.sent)
    {
      if onCourse {
        StopThrust();
        return ax, ay, true, false, [], [];
      }
      axAfter, ayAfter, done, pitched, yawErrors, pitchErrors := AlignOffCourse(ax, ay, axDest, ayDest, fuel);
    }

    /**
     * What the two alignment loops of a pass off course did, from reply k0
     * and the log `log0` to the log `sent`: the yaw loop saw `yawErrors`;
     * when it finished (`pitched`) the yaw angle is within 0.2, the stop
     * was sent, and the pitch loop saw `pitchErrors` from the reply after
     * the stop; `done` means both finished, so both angles are within 0.2.
     * The log holds exactly these requests, in this order.
     */
    ghost predicate AxesRun(ax: real, ay: real, axDest: real, ayDest: real, k0: nat, log0: seq<Request>,
                            axAfter: real, ayAfter: real, done: bool, pitched: bool,
                            yawErrors: seq<real>, pitchErrors: seq<real>, sent: seq<Request>)
    {
      var pitchFrom := AlignReplies(yawErrors, Unset, k0) + 1;
      && (done ==> pitched && Abs(axAfter - axDest) <= 0.2 && Abs(ayAfter - ayDest) <= 0.2)
      && (pitched ==> Abs(axAfter - axDest) <= 0.2)
      && ErrorsRead(YawAxis, yawErrors, ax, axDest, k0)
      && ErrorsRead(PitchAxis, pitchErrors, ay, ayDest, pitchFrom)
      && (!pitched ==> sent == log0 + AlignRequests(YawAxis, yawErrors, Unset, k0))
      && (pitched ==>
            sent == log0 + AlignRequests(YawAxis, yawErrors, Unset, k0) + [Request(Op.StopThrust, Index(0))]
                    + AlignRequests(PitchAxis, pitchErrors, Unset, pitchFrom))
    }

    /** `AlignAxes` off course: the yaw loop, then, if it finished, the stop and the pitch loop. */
    method AlignOffCourse(ax: real, ay: real, axDest: real, ayDest: real, fuel: nat)
      returns (axAfter: real, ayAfter: real, done: bool,
               ghost pitched: bool, ghost yawErrors: seq<real>, ghost pitchErrors: seq<real>)
      requires Valid()
      modifies this, host, valuesRCS, valuesDelta
      ensures Others() == old(Others()) && old(host.sent) <= host.sent
      ensures AxesRun(ax, ay, axDest, ayDest, old(host.next), old(host.sent), axAfter, ayAfter, done, pitched, yawErrors, pitchErrors, host.sent)
    {
      ghost var k0, log0 := host.next, host.sent;
      ayAfter, pitched, pitchErrors := ay, false, [];
      ghost var speeds;
      axAfter, done, yawErrors, speeds := Align(YawAxis, ax, axDest, fuel);
      if done {
        pitched := true;
        ayAfter, done, pitchErrors := StopAndAlignPitch(ay, ayDest, fuel, ax, axDest, axAfter, yawErrors, k0, log0);
      }
    }

    /**
     * The second half of `AlignAxes`: stop the thrust, then the pitch
     * alignment loop, after a yaw loop that saw `yawErrors` from reply k0
     * and the log `log0` and finished at `axAfter`.
     */
    method StopAndAlignPitch(ay: real, ayDest: real, fuel: nat, ghost ax: real, ghost axDest: real, ghost axAfter: real,
                             ghost yawErrors: seq<real>, ghost k0: nat, ghost log0: seq<Request>)
      returns (ayAfter: real, done: bool, ghost pitchErrors: seq<real>)
      requires Valid()
      requires Abs(axAfter - axDest) <= 0.2 && ErrorsRead(YawAxis, yawErrors, ax, axDest, k0)
      requires host.next == AlignReplies(yawErrors, Unset, k0) && host.sent == log0 + AlignRequests(YawAxis, yawErrors, Unset, k0)
      modifies this, host, valuesRCS, valuesDelta
      ensures done ==> Abs(ayAfter - ayDest) <= 0.2
      ensures ErrorsRead(PitchAxis, pitchErrors, ay, ayDest, old(host.next) + 1)
      ensures host.sent == old(host.sent) + [Request(Op.StopThrust, Index(0))] + AlignRequests(PitchAxis, pitchErrors, Unset, old(host.next) + 1)
      ensures AxesRun(ax, ay, axDest, ayDest, k0, log0, axAfter, ayAfter, done, true, yawErrors, pitchErrors, host.sent)
      ensures Others() == old(Others())
    {
      StopThrust();
      ghost var log1, pitchFrom := host.sent, host.next;
      ghost var speeds;
      ayAfter, done, pitchErrors, speeds := Align(PitchAxis, ay, ayDest, fuel);
      YawThenPitch(ax, ay, axDest, ayDest, k0, log0, pitchFrom, log1, axAfter, ayAfter, done, yawErrors, pitchErrors, host.sent);
    }

    /** The record of a pass off course whose yaw loop finished, after which the stop and the pitch loop ran. */
    lemma YawThenPitch(ax: real, ay: real, axDest: real, ayDest: real, k0: nat, log0: seq<Request>,
                       pitchFrom: nat, log1: seq<Request>, axAfter: real, ayAfter: real, done: bool,
                       yawErrors: seq<real>, pitchErrors: seq<real>, sent: seq<Request>)
      requires Abs(axAfter - axDest) <= 0.2 && (done ==> Abs(ayAfter - ayDest) <= 0.2)
      requires ErrorsRead(YawAxis, yawErrors, ax, axDest, k0)
      requires pitchFrom == AlignReplies(yawErrors, Unset, k0) + 1
      requires ErrorsRead(PitchAxis, pitchErrors, ay, ayDest, pitchFrom)
      requires log1 == log0 + AlignRequests(YawAxis, yawErrors, Unset, k0) + [Request(Op.StopThrust, Index(0))]
      requires sent == log1 + AlignRequests(PitchAxis, pitchErrors, Unset, pitchFrom)
      ensures AxesRun(ax, ay, axDest, ayDest, k0, log0, axAfter, ayAfter, done, true, yawErrors, pitchErrors, sent)
    {
    }

    /**
     * The rest of a pass of the navigation loop: stop the thrust, read the
     * position, compare the x and y angles (`atan2(y, x)` and `atan2(x, y)`)
     * with the destination's, align them with the bang-bang loops unless
     * already on course, then count the iteration. `holding` is the guard of
     * the fine-trim loop, which the angles read before alignment decide
     * (only the aligned one is re-read). Once on course no rotation command
     * is sent, and holding is decided by the current position alone.
     */
    method Steer(fuel: nat) returns (holding: bool, outOfFuel: bool)
      requires Valid()
      modifies this, host, valuesRCS, valuesDelta
      ensures !outOfFuel ==> onCourse && countIterations == old(countIterations) + 1.0
      ensures outOfFuel ==> countIterations == old(countIterations)
      ensures old(onCourse) ==>
        var p := host.VectorAt(old(host.next) + 1);
        && !outOfFuel && vessel.currentPosition == p
        && host.sent == old(host.sent) +
             [Request(Op.StopThrust, Index(0)), Request(GetPos, Index(0)), Request(Op.StopThrust, Index(0)), Request(Op.StopThrust, Index(0))]
        && (holding <==>
              Abs(AngleOf(PitchAxis, p) - AngleOf(PitchAxis, dest.currentPosition)) < 0.2 &&
              Abs(AngleOf(YawAxis, p) - AngleOf(YawAxis, dest.currentPosition)) < 0.2)
      ensures dest == old(dest) && old(host.sent) <= host.sent
    {
      // make sure the thrusters are set to zero, then read the position
      var position := StopAndLocate();
      var ax := AngleOf(YawAxis, vessel.currentPosition);
      var ay := AngleOf(PitchAxis, vessel.currentPosition);
      var axDest := AngleOf(YawAxis, dest.currentPosition);
      var ayDest := AngleOf(PitchAxis, dest.currentPosition);
      var done;
      ghost var pitched, yawErrors, pitchErrors;
      ax, ay, done, pitched, yawErrors, pitchErrors := AlignAxes(ax, ay, axDest, ayDest, fuel);
      if !done {
        return false, true;
      }
      ghost var logAligned := host.sent;
      onCourse := true;
      StopThrust();
      assert host.sent == logAligned + [Request(Op.StopThrust, Index(0))];
      countIterations := countIterations + 1.0;
      holding := Abs(ay - ayDest) < 0.2 && Abs(ax - axDest) < 0.2;
      outOfFuel := false;
    }
  }
}
