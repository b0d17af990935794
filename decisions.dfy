/**
 * The decisions the autopilot of src/navap.cpp takes, as functions of
 * explicit state: the arrival test, the clamped set-point arithmetic of
 * `setPitch`, `setRoll` and `setYaw`, the bang-bang bracketing of the
 * alignment loops, the dominant axis of the collision handler, its initial
 * maneuver and its reversal rule. The `NavAP` class (module Navigation) runs
 * them against the simulator.
 */
module Decisions {
  import opened Vectors
  import Slab

  function Abs(x: real): (r: real)
    ensures r >= 0.0 && (r == x || r == -x)
  {
    if x < 0.0 then -x else x
  }

  // ---------------------------------------------------------------- arrival

  /**
   * The negation of the guard of the navigation loop as written: each axis
   * strictly within 5 of the destination, except that the lower bound of y
   * is taken from the destination's x.
   */
  predicate ArrivedAsWritten(v: Vec3, d: Vec3)
  {
    && v.x < d.x + 5.0 && v.x > d.x - 5.0
    && v.y < d.y + 5.0 && v.y > d.x - 5.0
    && v.z < d.z + 5.0 && v.z > d.z - 5.0
  }

  /** The evidently intended arrival test: every axis strictly within 5. */
  predicate Arrived(v: Vec3, d: Vec3)
  {
    Abs(v.x - d.x) < 5.0 && Abs(v.y - d.y) < 5.0 && Abs(v.z - d.z) < 5.0
  }

  /** A vessel exactly at its destination has arrived. */
  lemma ArrivedAtDestination(d: Vec3)
    ensures Arrived(d, d)
  {
  }

  /**
   * As written, a vessel sitting on the destination (100, 0, 0) never leaves
   * the navigation loop: its y, 0, is not above 100 - 5.
   */
  lemma ArrivalCounterexample()
    ensures var p := Vec3(100.0, 0.0, 0.0); Arrived(p, p) && !ArrivedAsWritten(p, p)
  {
    ArrivedAtDestination(Vec3(100.0, 0.0, 0.0));
  }

  /** The two tests agree on every destination whose x and y coincide. */
  lemma ArrivalAgreesWhenXEqualsY(v: Vec3, d: Vec3)
    requires d.x == d.y
    ensures ArrivedAsWritten(v, d) <==> Arrived(v, d)
  {
  }

  // ------------------------------------------------------------ set-points

  /** `if (a > 1.5) a = 1.5; if (a < -1.5) a = -1.5;` of `setPitch`/`setYaw`. */
  function ClampAngle(a: real): (r: real)
    ensures -1.5 <= r <= 1.5
    ensures -1.5 <= a <= 1.5 ==> r == a
    ensures a > 1.5 ==> r == 1.5
    ensures a < -1.5 ==> r == -1.5
  {
    if a > 1.5 then 1.5 else if a < -1.5 then -1.5 else a
  }

  /**
   * The rotation speed toward a target: a tenth of `current - target`,
   * clamped to [-0.04, 0.04]. It is positive exactly when the current angle
   * is above the target, and unclamped within 0.4 of it.
   */
  function ApproachSpeed(current: real, target: real): (s: real)
    ensures -0.04 <= s <= 0.04
    ensures s > 0.0 <==> current > target
    ensures s < 0.0 <==> current < target
    ensures Abs(current - target) <= 0.4 ==> s == (current - target) * 0.1
  {
    var speed := (current - target) * 0.1;
    if speed > 0.04 then 0.04 else if speed < -0.04 then -0.04 else speed
  }

  /**
   * The pitch speed `setPitch` commands: the target clamped to +-1.5, then
   * the negated approach speed. Its magnitude never exceeds 0.04.
   */
  function PitchCommand(pitch: real, currentPitch: real): (s: real)
    ensures Abs(s) <= 0.04
  {
    -ApproachSpeed(currentPitch, ClampAngle(pitch))
  }

  /**
   * The bank speed `setRoll` commands: the roll is negated and NOT clamped,
   * then the approach speed toward it is used as it is.
   */
  function RollCommand(roll: real, currentBank: real): (s: real)
    ensures Abs(s) <= 0.04
  {
    ApproachSpeed(currentBank, -roll)
  }

  /**
   * The yaw speed `setYaw` commands: the target clamped to +-1.5, then the
   * approach speed, not negated (unlike `setPitch`).
   */
  function YawCommand(yaw: real, currentYaw: real): (s: real)
    ensures Abs(s) <= 0.04
  {
    ApproachSpeed(currentYaw, ClampAngle(yaw))
  }

  /**
   * A pitch request beyond +-1.5 acts exactly as +-1.5, and so does a yaw
   * request below -1.5; a roll request is never cut: with the bank at 1.9, a
   * roll of -2 asks for a slow turn away (-0.01) where -1.5 would ask for the
   * full 0.04 toward it.
   */
  lemma TargetsBeyondLimitAreCut(current: real, a: real)
    ensures a > 1.5 ==> PitchCommand(a, current) == PitchCommand(1.5, current)
    ensures a < -1.5 ==> YawCommand(a, current) == YawCommand(-1.5, current)
    ensures RollCommand(-2.0, 1.9) == -0.01 && RollCommand(-1.5, 1.9) == 0.04
  {
  }

  // --------------------------------------------------------------- bang-bang

  /**
   * The bracketing state of an alignment loop: `thrustSet` and
   * `thrustModifier`, where modifier 1 means the last command was -0.04 and
   * modifier 2 that it was +0.04.
   */
  datatype Bracket = Bracket(thrustSet: bool, thrustModifier: int)

  /** The state each alignment loop starts from. */
  const Unset: Bracket := Bracket(false, 0)

  /** The states a loop can be in. */
  predicate Reachable(s: Bracket)
  {
    s == Unset || s == Bracket(true, 1) || s == Bracket(true, 2)
  }

  /** What one pass of an alignment loop sends: a speed, or nothing. */
  datatype Command = NoCommand | Speed(value: real)

  datatype Step = Step(command: Command, next: Bracket)

  /** The modifier that records the direction of the command for a given error. */
  function Side(err: real): int
  {
    if err > 0.0 then 1 else 2
  }

  /**
   * The `if`/`else if` chain of an alignment loop, for the error
   * `angle - target`. A command always opposes the error, at 0.04, and a
   * reachable state stays reachable.
   */
  function BangBangStep(err: real, s: Bracket): (r: Step)
    ensures r.command.Speed? ==> r.command.value == (if err > 0.0 then -0.04 else 0.04)
    ensures r.command.Speed? ==> err != 0.0 && r.next == Bracket(true, Side(err))
    ensures r.command.NoCommand? ==> r.next == s
    ensures Reachable(s) ==> Reachable(r.next)
  {
    if err > 0.0 && !s.thrustSet then Step(Speed(-0.04), Bracket(true, 1))
    else if err < 0.0 && s.thrustModifier == 1 then Step(Speed(0.04), Bracket(true, 2))
    else if err < 0.0 && !s.thrustSet then Step(Speed(0.04), Bracket(true, 2))
    else if err > 0.0 && s.thrustModifier == 2 then Step(Speed(-0.04), Bracket(true, 1))
    else Step(NoCommand, s)
  }

  /**
   * From a reachable state and a non-zero error, a step issues a command
   * exactly when the last command (if any) did not already push against this
   * error, and afterwards the state records the error's side.
   */
  lemma BangBangCommandsOnSignChange(err: real, s: Bracket)
    requires Reachable(s) && err != 0.0
    ensures BangBangStep(err, s).command.Speed? <==> s.thrustModifier != Side(err)
    ensures BangBangStep(err, s).next == Bracket(true, Side(err))
  {
  }

  /** A second error of the same sign issues no new command. */
  lemma SameSignRepeatIsSilent(e1: real, e2: real, s: Bracket)
    requires Reachable(s) && e1 != 0.0 && e2 != 0.0 && (e1 > 0.0 <==> e2 > 0.0)
    ensures BangBangStep(e2, BangBangStep(e1, s).next).command == NoCommand
  {
    BangBangCommandsOnSignChange(e1, s);
  }

  /** The commands issued over a sequence of errors, starting from state s. */
  function Commands(errs: seq<real>, s: Bracket): seq<real>
  {
    if errs == [] then []
    else
      var r := BangBangStep(errs[0], s);
      Emitted(r) + Commands(errs[1..], r.next)
  }

  /** The bracketing state after a sequence of errors, starting from state s. */
  function Final(errs: seq<real>, s: Bracket): Bracket
  {
    if errs == [] then s else Final(errs[1..], BangBangStep(errs[0], s).next)
  }

  /** The command of one step, as a sequence of zero or one speeds. */
  function Emitted(r: Step): seq<real>
  {
    if r.command.Speed? then [r.command.value] else []
  }

  /**
   * Running one more error extends the command sequence by what the step
   * from the final state emits: the loop may record its commands one pass
   * at a time.
   */
  lemma {:induction false} CommandsSnoc(errs: seq<real>, s: Bracket, e: real)
    ensures Commands(errs + [e], s) == Commands(errs, s) + Emitted(BangBangStep(e, Final(errs, s)))
    ensures Final(errs + [e], s) == BangBangStep(e, Final(errs, s)).next
  {
    if errs != [] {
      assert (errs + [e])[0] == errs[0];
      assert (errs + [e])[1..] == errs[1..] + [e];
      CommandsSnoc(errs[1..], BangBangStep(errs[0], s).next, e);
    }
  }

  /**
   * Over any run of non-zero errors from a reachable state, consecutive
   * commands alternate in sign: the thrusters are never sent the same
   * direction twice in a row.
   */
  lemma {:induction false} CommandsAlternate(errs: seq<real>, s: Bracket)
    requires Reachable(s)
    requires forall k :: 0 <= k < |errs| ==> errs[k] != 0.0
    ensures var c := Commands(errs, s); forall k :: 0 <= k < |c| - 1 ==> c[k + 1] == -c[k]
    ensures var c := Commands(errs, s); |c| > 0 && s.thrustSet ==> c[0] == (if s.thrustModifier == 1 then 0.04 else -0.04)
  {
    if errs != [] {
      var r := BangBangStep(errs[0], s);
      BangBangCommandsOnSignChange(errs[0], s);
      CommandsAlternate(errs[1..], r.next);
    }
  }

  // ---------------------------------------------------------- collision maneuver

  /** The magnitudes `abs(distFromCentre.data[i])` the handler compares. */
  function Magnitudes(v: Vec3): (m: seq<real>)
    ensures |m| == 3 && forall i :: 0 <= i < 3 ==> m[i] == Abs(v.At(i))
  {
    [Abs(v.x), Abs(v.y), Abs(v.z)]
  }

  /**
   * The dominant-axis loop of `collisionHandler`: the first index of the
   * largest magnitude, since a later axis replaces the current one only when
   * strictly larger.
   */
  method DominantAxis(distFromCentre: Vec3) returns (distIndex: nat)
    ensures Slab.IsFirstMax(Magnitudes(distFromCentre), distIndex)
    ensures distIndex == Slab.FirstMax(Magnitudes(distFromCentre))
  {
    ghost var m := Magnitudes(distFromCentre);
    distIndex := 0;
    for index := 1 to 3
      invariant distIndex < index
      invariant forall k :: 0 <= k < index ==> m[k] <= m[distIndex]
      invariant forall k :: 0 <= k < distIndex ==> m[k] < m[distIndex]
    {
      if Abs(distFromCentre.At(index)) > Abs(distFromCentre.At(distIndex)) {
        distIndex := index;
      }
    }
    Slab.FirstMaxUnique(m, distIndex, Slab.FirstMax(m));
  }

  /** A tie between x and y goes to x: (3, 3, 1) selects axis 0. */
  lemma DominantAxisTieGoesToX()
    ensures Slab.FirstMax(Magnitudes(Vec3(3.0, 3.0, 1.0))) == 0
  {
    assert Magnitudes(Vec3(3.0, 3.0, 1.0)) == [3.0, 3.0, 1.0];
  }

  /** An attitude change the handler can ask for. */
  datatype Maneuver = NoManeuver | PitchTo(pitch: real) | RollTo(roll: real)

  /** The `switch (distIndex)` of the handler: axis 0 pitches, axis 1 rolls, axis 2 does nothing. */
  function InitialManeuver(distIndex: nat): Maneuver
  {
    if distIndex == 0 then PitchTo(0.08) else if distIndex == 1 then RollTo(0.08) else NoManeuver
  }

  /** The tag `completedRCSOperations` after the initial maneuver: 3 for pitch, 5 for roll, else unchanged. */
  function InitialTag(distIndex: nat, tag: int): int
  {
    if distIndex == 0 then 3 else if distIndex == 1 then 5 else tag
  }

  /** The `switch (completedRCSOperations)` when the distance shrinks. */
  function Reversal(tag: int): Maneuver
  {
    if tag == 3 then PitchTo(-0.08) else if tag == 5 then RollTo(-0.08) else NoManeuver
  }

  /** The tag after a reversal: 0 once a reversal was issued, unchanged by the default case. */
  function TagAfterReversal(tag: int): (t: int)
    ensures Reversal(tag) != NoManeuver ==> t == 0
    ensures Reversal(tag) == NoManeuver ==> t == tag
  {
    if tag == 3 || tag == 5 then 0 else tag
  }

  /** The maneuver of the opposite direction. */
  function Opposite(m: Maneuver): Maneuver
  {
    match m
    case NoManeuver => NoManeuver
    case PitchTo(p) => PitchTo(-p)
    case RollTo(r) => RollTo(-r)
  }

  /** A reversal right after the initial maneuver is its exact opposite. */
  lemma ReversalUndoesInitial(distIndex: nat, tag: int)
    requires distIndex < 2
    ensures Reversal(InitialTag(distIndex, tag)) == Opposite(InitialManeuver(distIndex))
  {
  }

  /** How many maneuvers n successive reversals issue, from tag `tag`. */
  function ReversalCount(tag: int, n: nat): nat
  {
    if n == 0 then 0
    else (if Reversal(tag) == NoManeuver then 0 else 1) + ReversalCount(TagAfterReversal(tag), n - 1)
  }

  /** Once a tag has produced no maneuver, it never produces one again. */
  lemma {:induction false} SilentTagStaysSilent(tag: int, n: nat)
    requires Reversal(tag) == NoManeuver
    ensures ReversalCount(tag, n) == 0
  {
    if n > 0 {
      SilentTagStaysSilent(TagAfterReversal(tag), n - 1);
    }
  }

  /** However often the distance shrinks, at most one reversal is issued per maneuver. */
  lemma {:induction false} AtMostOneReversal(tag: int, n: nat)
    ensures ReversalCount(tag, n) <= 1
  {
    if n > 0 {
      if Reversal(tag) == NoManeuver {
        SilentTagStaysSilent(tag, n);
      } else {
        assert Reversal(TagAfterReversal(tag)) == NoManeuver;
        SilentTagStaysSilent(TagAfterReversal(tag), n - 1);
      }
    }
  }

  // -------------------------------------------------------- squared distances

  /**
   * `getDistance` is the square root of the squared length; for a
   * non-negative distance d, d > 1e9 exactly when d*d > 1e18, so the
   * handler's far-away test may be stated on squared lengths.
   */
  lemma SquaredThreshold(d: real)
    requires d >= 0.0
    ensures d > 1000000000.0 <==> d * d > 1000000000000000000.0
  {
    if d > 1000000000.0 {
      assert d * d > 1000000000.0 * d;
    } else {
      assert d * d <= 1000000000.0 * d;
    }
  }

  /** For non-negative distances, comparing them and comparing their squares agree. */
  lemma SquaredOrder(a: real, b: real)
    requires a >= 0.0 && b >= 0.0
    ensures a < b <==> a * a < b * b
  {
    var gap, sum := b - a, b + a;
    assert b * b - a * a == gap * sum;
    if a < b {
      assert gap > 0.0 && sum > 0.0;
      assert gap * sum > 0.0;
    } else {
      assert gap <= 0.0 && sum >= 0.0;
      assert gap * sum <= 0.0;
    }
  }
}
