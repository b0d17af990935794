/**
 * The older autopilot of NavAP.cpp, which runs inside the Orbiter
 * simulator and drives the vessel through its API. The vessel interface
 * (`VESSEL`) is the class `Vessel`: the attitude the simulator reports and
 * the thruster-group levels the autopilot sets (a map from group to level),
 * plus the per-thruster levels `init` resets. The obstacles `oapiGetObject*`
 * would return are given as a sequence.
 */
module OrbiterAutopilot {
  import opened Vectors
  import opened Slab
  import Decisions
  import RayBoxLegacy

  /** The attitude thruster groups the autopilot drives. */
  datatype ThrusterGroup = BankRight | BankLeft | PitchUp | PitchDown | YawRight | YawLeft

  /**
   * `getRCSThrustByDelta`: 20 * delta + 0.01, clamped to [-1, 1]. The only
   * zero is at 20 * delta + 0.01 == 0, and the level always has the sign of
   * the unclamped value.
   */
  function RCSThrust(deltaSpeed: real): (thrust: real)
    ensures -1.0 <= thrust <= 1.0
    ensures thrust == 0.0 <==> 20.0 * deltaSpeed + 0.01 == 0.0
    ensures thrust > 0.0 <==> 20.0 * deltaSpeed + 0.01 > 0.0
    ensures -1.0 <= 20.0 * deltaSpeed + 0.01 <= 1.0 ==> thrust == 20.0 * deltaSpeed + 0.01
  {
    var deltaFAC := 20.0;
    var thAdd := 0.01;
    var thrust := deltaFAC * deltaSpeed + thAdd;
    if thrust > 0.0 && thrust <= 1.0 then thrust
    else if thrust > 0.0 && thrust > 1.0 then 1.0
    else if thrust < 0.0 && thrust >= -1.0 then thrust
    else if thrust < 0.0 && thrust < -1.0 then -1.0
    else 0.0
  }

  /**
   * The levels after "reset both groups of a pair, then set the positive
   * group to the thrust when delta > 0, or the negative group to -thrust
   * when delta < 0".
   */
  function PairLevels(levels: map<ThrusterGroup, real>, positive: ThrusterGroup, negative: ThrusterGroup,
                      deltaVel: real): (r: map<ThrusterGroup, real>)
    ensures positive in r && negative in r
    ensures forall g :: g in levels && g != positive && g != negative ==> g in r && r[g] == levels[g]
    ensures forall g :: g in r ==> g in levels || g == positive || g == negative
  {
    var reset := levels[positive := 0.0][negative := 0.0];
    var up := if deltaVel > 0.0 then reset[positive := RCSThrust(deltaVel)] else reset;
    if deltaVel < 0.0 then up[negative := -RCSThrust(deltaVel)] else up
  }

  /**
   * At most one group of the pair ends up non-zero; delta = 0 leaves both
   * at 0; a positive delta always fires the positive group.
   */
  lemma PairFiresAtMostOne(levels: map<ThrusterGroup, real>, positive: ThrusterGroup, negative: ThrusterGroup,
                           deltaVel: real)
    requires positive != negative
    ensures var r := PairLevels(levels, positive, negative, deltaVel);
      && (r[positive] == 0.0 || r[negative] == 0.0)
      && (deltaVel == 0.0 ==> r[positive] == 0.0 && r[negative] == 0.0)
      && (deltaVel > 0.0 ==> r[positive] > 0.0 && r[negative] == 0.0)
      && (deltaVel < 0.0 ==> r[positive] == 0.0 && r[negative] == -RCSThrust(deltaVel))
  {
  }

  /**
   * For a small negative delta the unclamped thrust is still positive
   * (the 0.01 offset), so the negative group is set to a negative level:
   * at delta = -0.0001 the thrust is 0.008 and the level -0.008.
   */
  lemma SmallNegativeDeltaGivesNegativeLevel(levels: map<ThrusterGroup, real>)
    ensures PairLevels(levels, BankRight, BankLeft, -0.0001)[BankLeft] == -0.008
    ensures forall d :: -0.0005 < d < 0.0 ==> PairLevels(levels, BankRight, BankLeft, d)[BankLeft] < 0.0
  {
  }

  /**
   * The set value of the collision adjustment: half the current angle,
   * capped above at 0.1 and not below.
   */
  function SetPoint(angle: real): (s: real)
    ensures s <= 0.1
    ensures angle <= 0.2 ==> s == angle / 2.0
    ensures angle > 0.2 ==> s == 0.1
  {
    var half := angle / 2.0;
    if half > 0.1 then 0.1 else half
  }

  /** Nothing bounds the set value from below: an angle of -3 asks for -1.5. */
  lemma SetPointHasNoLowerCap()
    ensures SetPoint(-3.0) == -1.5
  {
  }

  /** The Orbiter vessel interface the autopilot talks to. */
  class Vessel {
    /** `GetAngularVel`, `GetBank`, `GetPitch`, `GetYaw`: what the simulator reports. */
    const angularVel: Vec3
    const bank: real
    const pitch: real
    const yaw: real
    /** `SetThrusterGroupLevel`: the level of each attitude group. */
    var levels: map<ThrusterGroup, real>
    /** `SetThrusterLevel`: the level of each individual thruster. */
    var thrusters: seq<real>

    constructor (angularVel: Vec3, bank: real, pitch: real, yaw: real, thrusters: seq<real>)
      ensures this.angularVel == angularVel && this.bank == bank && this.pitch == pitch && this.yaw == yaw
      ensures levels == map[] && this.thrusters == thrusters
    {
      this.angularVel := angularVel;
      this.bank := bank;
      this.pitch := pitch;
      this.yaw := yaw;
      levels := map[];
      this.thrusters := thrusters;
    }

    method SetThrusterGroupLevel(g: ThrusterGroup, level: real)
      modifies this
      ensures levels == old(levels)[g := level] && thrusters == old(thrusters)
    {
      levels := levels[g := level];
    }

    method SetThrusterLevel(i: nat, level: real)
      requires i < |thrusters|
      modifies this
      ensures thrusters == old(thrusters)[i := level] && levels == old(levels)
    {
      thrusters := thrusters[i := level];
    }
  }

  /** The `isSet` and `isActive` flags of an entry of `g_Dest`. */
  datatype DestSlot = DestSlot(isSet: bool, isActive: bool)

  /**
   * The levels after the adjustment for axis distIndex: axis 0 drives the
   * bank and yaw pairs, axis 1 the pitch and yaw pairs, each towards a set
   * value of SetPoint of the current angle; any other axis changes nothing.
   */
  function Adjusted(levels: map<ThrusterGroup, real>, v: Vessel, distIndex: nat): map<ThrusterGroup, real>
  {
    if distIndex == 0 then
      PairLevels(PairLevels(levels, BankRight, BankLeft, SetPoint(v.bank) - v.angularVel.z),
                 YawRight, YawLeft, SetPoint(v.yaw) + v.angularVel.y)
    else if distIndex == 1 then
      PairLevels(PairLevels(levels, PitchUp, PitchDown, SetPoint(v.pitch) - v.angularVel.x),
                 YawRight, YawLeft, SetPoint(v.yaw) + v.angularVel.y)
    else levels
  }

  /**
   * The adjustment never touches the pair of the dominant axis' own
   * rotation: axis 0 leaves pitch alone, axis 1 leaves bank alone, and
   * both drive yaw.
   */
  lemma AdjustedLeavesOtherPair(levels: map<ThrusterGroup, real>, v: Vessel, distIndex: nat)
    requires distIndex < 2
    ensures var r := Adjusted(levels, v, distIndex);
      && (forall g :: g in levels && (distIndex == 0 ==> g in {PitchUp, PitchDown}) && (distIndex == 1 ==> g in {BankRight, BankLeft})
            ==> g in r && r[g] == levels[g])
      && r[YawRight] == (if SetPoint(v.yaw) + v.angularVel.y > 0.0 then RCSThrust(SetPoint(v.yaw) + v.angularVel.y) else 0.0)
  {
  }

  /** An object of the simulation: its handle, global position and size. */
  datatype SimObject = SimObject(handle: int, position: Vec3, size: real)

  /** How this `NavAPMain` ends. */
  datatype MainOutcome = NotEntered | Looping

  /** The indices among the first n objects whose handle is not h, in order. */
  function ProbedIndices(objects: seq<SimObject>, h: int, n: nat): (r: seq<nat>)
    requires n <= |objects|
    ensures forall j :: 0 <= j < |r| ==> r[j] < n
  {
    if n == 0 then []
    else ProbedIndices(objects, h, n - 1) + (if objects[n - 1].handle != h then [n - 1] else [])
  }

  /** An index is probed exactly when it is in range and is not the vessel's own handle. */
  lemma {:induction false} ProbedIndicesMeaning(objects: seq<SimObject>, h: int, n: nat, k: nat)
    requires n <= |objects|
    ensures k in ProbedIndices(objects, h, n) <==> k < n && objects[k].handle != h
  {
    if n > 0 {
      ProbedIndicesMeaning(objects, h, n - 1, k);
    }
  }

  /** The box `RayBox` builds around an object: its size is the radius. */
  function ObjectBox(o: SimObject): (b: Box)
    ensures b.centre == o.position && b.width == b.height == o.size * 2.0
  {
    Box(o.position, o.size * 2.0, o.size * 2.0)
  }

  /** When some object was probed, the verdict is the hit test of the last one. */
  ghost predicate LastVerdict(objects: seq<SimObject>, probed: seq<nat>, verdict: bool, ray: Ray)
  {
    probed != [] && probed[|probed| - 1] < |objects| ==>
      verdict == RayBoxLegacy.LegacyHit(ObjectBox(objects[probed[|probed| - 1]]), ray)
  }

  /**
   * The thruster levels after probing the objects at the indices `probed`, in
   * order, from `levels`: every object the ray hits applies the adjustment
   * for the dominant axis of its separation from `pos`; a miss changes nothing.
   */
  ghost function ScanLevels(objects: seq<SimObject>, probed: seq<nat>, levels: map<ThrusterGroup, real>,
                            v: Vessel, ray: Ray, pos: Vec3): map<ThrusterGroup, real>
  {
    if probed == [] then levels
    else
      var before := ScanLevels(objects, probed[..|probed| - 1], levels, v, ray, pos);
      var k := probed[|probed| - 1];
      if k < |objects| && RayBoxLegacy.LegacyHit(ObjectBox(objects[k]), ray)
      then Adjusted(before, v, FirstMax(Decisions.Magnitudes(Sub(objects[k].position, pos))))
      else before
  }

  /** A pass in which the ray hits none of the probed objects leaves every level as it was. */
  lemma {:induction false} ScanLevelsOfMisses(objects: seq<SimObject>, probed: seq<nat>, levels: map<ThrusterGroup, real>,
                                              v: Vessel, ray: Ray, pos: Vec3)
    requires forall j :: 0 <= j < |probed| && probed[j] < |objects| ==>
      !RayBoxLegacy.LegacyHit(ObjectBox(objects[probed[j]]), ray)
    ensures ScanLevels(objects, probed, levels, v, ray, pos) == levels
  {
    if probed != [] {
      var init := probed[..|probed| - 1];
      assert forall j :: 0 <= j < |init| ==> init[j] == probed[j];
      ScanLevelsOfMisses(objects, init, levels, v, ray, pos);
    }
  }

  /** Probing never removes a thruster group from the level map. */
  lemma {:induction false} ScanLevelsKeepKeys(objects: seq<SimObject>, probed: seq<nat>, levels: map<ThrusterGroup, real>,
                                              v: Vessel, ray: Ray, pos: Vec3)
    ensures forall g :: g in levels ==> g in ScanLevels(objects, probed, levels, v, ray, pos)
  {
    if probed != [] {
      ScanLevelsKeepKeys(objects, probed[..|probed| - 1], levels, v, ray, pos);
    }
  }

  /** Probing one more object applies its adjustment, if hit, to the levels of the probes before it. */
  lemma ScanLevelsSnoc(objects: seq<SimObject>, probed: seq<nat>, k: nat, levels: map<ThrusterGroup, real>,
                       v: Vessel, ray: Ray, pos: Vec3)
    requires k < |objects|
    ensures ScanLevels(objects, probed + [k], levels, v, ray, pos) ==
      var before := ScanLevels(objects, probed, levels, v, ray, pos);
      if RayBoxLegacy.LegacyHit(ObjectBox(objects[k]), ray)
      then Adjusted(before, v, FirstMax(Decisions.Magnitudes(Sub(objects[k].position, pos))))
      else before
  {
    assert (probed + [k])[..|probed|] == probed;
  }

  class NavAP {
    const vesselAuto: Vessel
    /** The global `g_Dest[256]`. */
    const gDest: array<DestSlot>
    var activeIndex: int
    var isCollision: bool
    var dest: Vec3
    var currentPos: Vec3
    var oldPos: Vec3
    var simTimeOld: real
    var horzSpeedOld: real
    var vertSpeedOld: real
    var dSimTime: real
    var distOld: real
    var headingOld: real
    var vertSpeedLastZycl: real

    /**
     * `NavAP()`: starts at index 0 and runs `init(OBJHANDLE)` on the vessel
     * handle, so entry 0 is cleared and the index ends at 1.
     */
    constructor (vesselAuto: Vessel, hVessel: Vessel?)
      modifies hVessel
      ensures this.vesselAuto == vesselAuto && activeIndex == 1 && HistoryCleared()
      ensures gDest.Length == 256 && fresh(gDest)
      ensures forall i :: 0 <= i < 256 ==> gDest[i] == DestSlot(false, false)
      ensures hVessel != null ==> forall i :: 0 <= i < |hVessel.thrusters| ==> hVessel.thrusters[i] == 0.0
    {
      this.vesselAuto := vesselAuto;
      gDest := new DestSlot[256](_ => DestSlot(false, false));
      activeIndex := 0;
      isCollision := false;
      dest, currentPos, oldPos := Zero, Zero, Zero;
      new;
      InitHandle(hVessel);
    }

    predicate HistoryCleared()
      reads this
    {
      simTimeOld == 0.0 && horzSpeedOld == 0.0 && vertSpeedOld == 0.0 && dSimTime == 0.0 &&
      distOld == 0.0 && headingOld == 0.0 && vertSpeedLastZycl == 0.0
    }

    /** Sets every thruster of the vessel to level 0, one at a time. */
    static method StopAllThrusters(vessel: Vessel)
      modifies vessel
      ensures |vessel.thrusters| == |old(vessel.thrusters)|
      ensures forall i :: 0 <= i < |vessel.thrusters| ==> vessel.thrusters[i] == 0.0
      ensures vessel.levels == old(vessel.levels)
    {
      for i := 0 to |vessel.thrusters|
        invariant |vessel.thrusters| == |old(vessel.thrusters)|
        invariant forall k :: 0 <= k < i ==> vessel.thrusters[k] == 0.0
        invariant vessel.levels == old(vessel.levels)
      {
        vessel.SetThrusterLevel(i, 0.0);
      }
    }

    /**
     * `init(OBJHANDLE)`: clears the history, clears `isActive` and `isSet`
     * of the entry at `activeIndex` and moves to the next index; `hVessel`,
     * when not NULL, has all its thrusters stopped. Only one entry changes.
     */
    method InitHandle(hVessel: Vessel?)
      requires gDest.Length == 256 && 0 <= activeIndex < 256
      modifies this, gDest, hVessel
      ensures activeIndex == old(activeIndex) + 1 && HistoryCleared()
      ensures gDest[old(activeIndex)] == DestSlot(false, false)
      ensures forall i :: 0 <= i < 256 && i != old(activeIndex) ==> gDest[i] == old(gDest[i])
      ensures hVessel != null ==> forall i :: 0 <= i < |hVessel.thrusters| ==> hVessel.thrusters[i] == 0.0
      ensures dest == old(dest) && currentPos == old(currentPos) && isCollision == old(isCollision)
    {
      simTimeOld, horzSpeedOld, vertSpeedOld, dSimTime, distOld, headingOld, vertSpeedLastZycl :=
        0.0, 0.0, 0.0, 0.0, 0.0, 0.0, 0.0;
      // When initilising a new vessel, add one to the index
      gDest[activeIndex] := gDest[activeIndex].(isActive := false);
      gDest[activeIndex] := gDest[activeIndex].(isSet := false);
      activeIndex := activeIndex + 1;
      if hVessel != null {
        StopAllThrusters(hVessel);
      }
    }

    /**
     * `init(int)`: clears the entry at the given index and makes it the
     * active one; `hVessel` is what `oapiGetVesselByIndex` returns for it.
     */
    method InitIndex(vesselIndex: int, hVessel: Vessel?)
      requires gDest.Length == 256 && 0 <= vesselIndex < 256
      modifies this, gDest, hVessel
      ensures activeIndex == vesselIndex && HistoryCleared()
      ensures gDest[vesselIndex] == DestSlot(false, false)
      ensures forall i :: 0 <= i < 256 && i != vesselIndex ==> gDest[i] == old(gDest[i])
      ensures hVessel != null ==> forall i :: 0 <= i < |hVessel.thrusters| ==> hVessel.thrusters[i] == 0.0
      ensures dest == old(dest) && currentPos == old(currentPos) && isCollision == old(isCollision)
    {
      simTimeOld, horzSpeedOld, vertSpeedOld, dSimTime, distOld, headingOld, vertSpeedLastZycl :=
        0.0, 0.0, 0.0, 0.0, 0.0, 0.0, 0.0;
      gDest[vesselIndex] := gDest[vesselIndex].(isActive := false);
      gDest[vesselIndex] := gDest[vesselIndex].(isSet := false);
      activeIndex := vesselIndex;
      if hVessel != null {
        StopAllThrusters(hVessel);
      }
    }

    /** `setBankSpeed`: the bank pair, for delta = value - angular velocity z. */
    method SetBankSpeed(value: real)
      modifies vesselAuto
      ensures vesselAuto.levels == PairLevels(old(vesselAuto.levels), BankRight, BankLeft, value - vesselAuto.angularVel.z)
      ensures vesselAuto.thrusters == old(vesselAuto.thrusters)
    {
      var currentRotVel := vesselAuto.angularVel;
      var deltaVel := value - currentRotVel.z;
      var thrust := RCSThrust(deltaVel);
      // Reset the RCS thrusters to 0 so a bank maneouver is only attempted in a single direction
      vesselAuto.SetThrusterGroupLevel(BankRight, 0.0);
      vesselAuto.SetThrusterGroupLevel(BankLeft, 0.0);
      if deltaVel > 0.0 {
        vesselAuto.SetThrusterGroupLevel(BankRight, thrust);
      }
      if deltaVel < 0.0 {
        vesselAuto.SetThrusterGroupLevel(BankLeft, -thrust);
      }
    }

    /** `setPitchSpeed`: the pitch pair, for delta = value - angular velocity x. */
    method SetPitchSpeed(value: real)
      modifies vesselAuto
      ensures vesselAuto.levels == PairLevels(old(vesselAuto.levels), PitchUp, PitchDown, value - vesselAuto.angularVel.x)
      ensures vesselAuto.thrusters == old(vesselAuto.thrusters)
    {
      var currentRotVel := vesselAuto.angularVel;
      var deltaVel := value - currentRotVel.x;
      var thrust := RCSThrust(deltaVel);
      vesselAuto.SetThrusterGroupLevel(PitchUp, 0.0);
      vesselAuto.SetThrusterGroupLevel(PitchDown, 0.0);
      if deltaVel > 0.0 {
        vesselAuto.SetThrusterGroupLevel(PitchUp, thrust);
      }
      if deltaVel < 0.0 {
        vesselAuto.SetThrusterGroupLevel(PitchDown, -thrust);
      }
    }

    /** `setYawSpeed`: the yaw pair, for delta = value - (-angular velocity y). */
    method SetYawSpeed(value: real)
      modifies vesselAuto
      ensures vesselAuto.levels == PairLevels(old(vesselAuto.levels), YawRight, YawLeft, value + vesselAuto.angularVel.y)
      ensures vesselAuto.thrusters == old(vesselAuto.thrusters)
    {
      var currentRotVel := vesselAuto.angularVel;
      var deltaVel := value - (-currentRotVel.y);
      var thrust := RCSThrust(deltaVel);
      vesselAuto.SetThrusterGroupLevel(YawRight, 0.0);
      vesselAuto.SetThrusterGroupLevel(YawLeft, 0.0);
      if deltaVel > 0.0 {
        vesselAuto.SetThrusterGroupLevel(YawRight, thrust);
      }
      if deltaVel < 0.0 {
        vesselAuto.SetThrusterGroupLevel(YawLeft, -thrust);
      }
    }

    /**
     * `setPitch`: the pitch pair driven by the clamped, negated approach
     * speed of Decisions.PitchCommand; it returns 0.
     */
    method SetPitch(pitch: real) returns (r: real)
      modifies vesselAuto
      ensures r == 0.0
      ensures vesselAuto.levels == PairLevels(old(vesselAuto.levels), PitchUp, PitchDown,
        Decisions.PitchCommand(pitch, vesselAuto.pitch) - vesselAuto.angularVel.x)
      ensures vesselAuto.thrusters == old(vesselAuto.thrusters)
    {
      var p := pitch;
      if p > 1.5 {
        p := 1.5;
      }
      if p < -1.5 {
        p := -1.5;
      }
      var currentPitch := vesselAuto.pitch;
      var deltaPitch := currentPitch - p;
      var pitchSpeed := deltaPitch * 0.1;
      if pitchSpeed > 0.04 {
        pitchSpeed := 0.04;
      }
      if pitchSpeed < -0.04 {
        pitchSpeed := -0.04;
      }
      assert -pitchSpeed == Decisions.PitchCommand(pitch, currentPitch);
      SetPitchSpeed(-pitchSpeed);
      return 0.0;
    }

    /** `setRoll`: the bank pair driven by Decisions.RollCommand (roll negated, not clamped); it returns 0. */
    method SetRoll(roll: real) returns (r: real)
      modifies vesselAuto
      ensures r == 0.0
      ensures vesselAuto.levels == PairLevels(old(vesselAuto.levels), BankRight, BankLeft,
        Decisions.RollCommand(roll, vesselAuto.bank) - vesselAuto.angularVel.z)
      ensures vesselAuto.thrusters == old(vesselAuto.thrusters)
    {
      var rl := -roll;
      var currentBank := vesselAuto.bank;
      var deltaBank := currentBank - rl;
      var bankSpeed := deltaBank * 0.1;
      if bankSpeed > 0.04 {
        bankSpeed := 0.04;
      }
      if bankSpeed < -0.04 {
        bankSpeed := -0.04;
      }
      assert bankSpeed == Decisions.RollCommand(roll, currentBank);
      SetBankSpeed(bankSpeed);
      return 0.0;
    }

    /**
     * The `switch (distIndex)` of the collision branch: axis 0 sets the bank
     * and yaw pairs, axis 1 the pitch and yaw pairs, each from half the
     * current angle capped above at 0.1; axis 2 changes nothing.
     */
    method Adjust(distIndex: nat)
      modifies vesselAuto
      ensures vesselAuto.levels == Adjusted(old(vesselAuto.levels), vesselAuto, distIndex)
      ensures vesselAuto.thrusters == old(vesselAuto.thrusters)
    {
      if distIndex == 0 {
        // Largest in the x axis: bank and yaw
        var currentBank := vesselAuto.bank;
        var currentYaw := vesselAuto.yaw;
        var bankset := currentBank / 2.0;
        var yawset := currentYaw / 2.0;
        if bankset > 0.1 {
          bankset := 0.1;
        }
        if yawset > 0.1 {
          yawset := 0.1;
        }
        assert bankset == SetPoint(currentBank) && yawset == SetPoint(currentYaw);
        SetBankSpeed(bankset);
        SetYawSpeed(yawset);
      } else if distIndex == 1 {
        // Largest in the y axis: pitch and yaw
        var currentPitch := vesselAuto.pitch;
        var currentYaw := vesselAuto.yaw;
        var pitchset := currentPitch / 2.0;
        var yawset := currentYaw / 2.0;
        // If the set values are larger than the max, set to max
        if pitchset > 0.1 {
          pitchset := 0.1;
        }
        if yawset > 0.1 {
          yawset := 0.1;
        }
        assert pitchset == SetPoint(currentPitch) && yawset == SetPoint(currentYaw);
        SetPitchSpeed(pitchset);
        SetYawSpeed(yawset);
      }
    }

    /**
     * One pass of the object loop of `NavAPMain`: objects with the vessel's
     * own handle are skipped; every other one is tested for a collision on
     * the ray from `currentPos` along `currentPos - oldPos`, `isCollision`
     * keeps the verdict of the last one, and a hit runs the adjustment for
     * the dominant axis of the separation from the object's centre.
     * `probed` lists the objects tested.
     */
    method ScanObjects(objects: seq<SimObject>, vesselHandle: int,
                       staleQuadrant: seq<Quadrant>, stalePlane: seq<real>)
      returns (ghost probed: seq<nat>)
      requires |staleQuadrant| == 3 && |stalePlane| == 3
      modifies this, vesselAuto
      ensures probed == ProbedIndices(objects, vesselHandle, |objects|)
      ensures probed == [] ==> isCollision == old(isCollision)
      ensures LastVerdict(objects, probed, isCollision, Ray(Sub(currentPos, oldPos), currentPos))
      ensures vesselAuto.levels ==
        ScanLevels(objects, probed, old(vesselAuto.levels), vesselAuto, Ray(Sub(currentPos, oldPos), currentPos), currentPos)
      ensures currentPos == old(currentPos) && oldPos == old(oldPos) && dest == old(dest)
      ensures activeIndex == old(activeIndex) && vesselAuto.thrusters == old(vesselAuto.thrusters)
    {
      ghost var ray := Ray(Sub(currentPos, oldPos), currentPos);
      probed := [];
      for i := 0 to |objects|
        invariant probed == ProbedIndices(objects, vesselHandle, i)
        invariant probed == [] ==> isCollision == old(isCollision)
        invariant LastVerdict(objects, probed, isCollision, ray)
        invariant vesselAuto.levels == ScanLevels(objects, probed, old(vesselAuto.levels), vesselAuto, ray, currentPos)
        invariant currentPos == old(currentPos) && oldPos == old(oldPos) && dest == old(dest)
        invariant activeIndex == old(activeIndex) && vesselAuto.thrusters == old(vesselAuto.thrusters)
      {
        // find the handle for the nearby object
        var simObj := objects[i];
        // Check if the nearby object is the vessel
        if simObj.handle == vesselHandle {
          continue;
        }
        Visit(objects, i, probed, old(vesselAuto.levels), ray, staleQuadrant, stalePlane);
        probed := probed + [i];
      }
    }

    /** One object of the scan that is not the vessel: probe it and keep the verdict. */
    method Visit(objects: seq<SimObject>, i: nat, ghost probed: seq<nat>, ghost levels0: map<ThrusterGroup, real>,
                 ghost ray: Ray, staleQuadrant: seq<Quadrant>, stalePlane: seq<real>)
      requires i < |objects| && |staleQuadrant| == 3 && |stalePlane| == 3
      requires ray == Ray(Sub(currentPos, oldPos), currentPos)
      requires vesselAuto.levels == ScanLevels(objects, probed, levels0, vesselAuto, ray, currentPos)
      modifies this, vesselAuto
      ensures isCollision == RayBoxLegacy.LegacyHit(ObjectBox(objects[i]), ray)
      ensures LastVerdict(objects, probed + [i], isCollision, ray)
      ensures vesselAuto.levels == ScanLevels(objects, probed + [i], levels0, vesselAuto, ray, currentPos)
      ensures currentPos == old(currentPos) && oldPos == old(oldPos) && dest == old(dest)
      ensures activeIndex == old(activeIndex) && vesselAuto.thrusters == old(vesselAuto.thrusters)
    {
      var ifCollide := Probe(objects[i], staleQuadrant, stalePlane);
      isCollision := ifCollide;
      ScanLevelsSnoc(objects, probed, i, levels0, vesselAuto, ray, currentPos);
    }

    /** The collision test for one object, and the adjustment when it is hit. */
    method Probe(simObj: SimObject, staleQuadrant: seq<Quadrant>, stalePlane: seq<real>) returns (ifCollide: bool)
      requires |staleQuadrant| == 3 && |stalePlane| == 3
      modifies vesselAuto
      ensures ifCollide == RayBoxLegacy.LegacyHit(ObjectBox(simObj), Ray(Sub(currentPos, oldPos), currentPos))
      ensures !ifCollide ==> vesselAuto.levels == old(vesselAuto.levels)
      ensures ifCollide ==>
        vesselAuto.levels == Adjusted(old(vesselAuto.levels), vesselAuto,
                                      FirstMax(Decisions.Magnitudes(Sub(simObj.position, currentPos))))
      ensures vesselAuto.thrusters == old(vesselAuto.thrusters)
    {
      var collisionCheck;
      ifCollide, collisionCheck := Collides(simObj);
      if ifCollide {
        Respond(collisionCheck, simObj.position, staleQuadrant, stalePlane);
      }
    }

    /**
     * The ray-box test of the object loop: a fresh `RayBox` around the
     * object, with the ray from `currentPos` along the step from `oldPos`.
     */
    method Collides(simObj: SimObject) returns (ifCollide: bool, collisionCheck: RayBoxLegacy.RayBox)
      ensures fresh(collisionCheck)
      ensures ifCollide == RayBoxLegacy.LegacyHit(ObjectBox(simObj), Ray(Sub(currentPos, oldPos), currentPos))
    {
      var nearObjPos := simObj.position;
      // Find the direction vector from the previous to the current position
      var direction := Vec3(currentPos.x - oldPos.x, currentPos.y - oldPos.y, currentPos.z - oldPos.z);
      assert direction == Sub(currentPos, oldPos);
      collisionCheck := new RayBoxLegacy.RayBox(nearObjPos, simObj.size);
      collisionCheck.vesselRay := Ray(direction, currentPos);
      ifCollide := collisionCheck.Intersect(collisionCheck.vesselRay);
    }

    /**
     * After a hit: the collision point is computed (and not used further),
     * and the adjustment runs for the dominant axis of the separation
     * between the object's centre and the vessel.
     */
    method Respond(collisionCheck: RayBoxLegacy.RayBox, nearObjPos: Vec3,
                   staleQuadrant: seq<Quadrant>, stalePlane: seq<real>)
      requires |staleQuadrant| == 3 && |stalePlane| == 3
      requires collisionCheck != vesselAuto as object
      modifies collisionCheck, vesselAuto
      ensures vesselAuto.levels ==
        Adjusted(old(vesselAuto.levels), vesselAuto, FirstMax(Decisions.Magnitudes(Sub(nearObjPos, currentPos))))
      ensures vesselAuto.thrusters == old(vesselAuto.thrusters)
    {
      // Get the coordinates of the collision
      collisionCheck.FindCollisionCoord(collisionCheck.vesselRay, staleQuadrant, stalePlane);
      // Work out which edge boundary we are closest to escape from
      var distFromCentre := Sub(nearObjPos, currentPos);
      var distIndex := Decisions.DominantAxis(distFromCentre);
      Adjust(distIndex);
    }

    /**
     * `NavAPMain`: the destination is Jupiter's position and the current
     * position the vessel's. The guard of the main loop is the arrival test
     * NOT negated, so the loop is entered only when the vessel is already
     * within 5 of the destination (with y's lower bound taken from the
     * destination's x), and since nothing in its body changes either
     * position it then never ends: one pass is modelled, and the outcome
     * says whether the loop was entered.
     */
    method NavAPMain(jupiter: Vec3, vesselPos: Vec3, objects: seq<SimObject>, vesselHandle: int,
                     staleQuadrant: seq<Quadrant>, stalePlane: seq<real>)
      returns (outcome: MainOutcome)
      requires |staleQuadrant| == 3 && |stalePlane| == 3
      modifies this, vesselAuto
      ensures dest == jupiter && currentPos == vesselPos
      ensures outcome == Looping <==> Decisions.ArrivedAsWritten(vesselPos, jupiter)
      ensures outcome == NotEntered ==> vesselAuto.levels == old(vesselAuto.levels) && isCollision == old(isCollision)
      ensures oldPos == old(oldPos)
      ensures outcome == Looping ==>
        var probed := ProbedIndices(objects, vesselHandle, |objects|);
        var ray := Ray(Sub(vesselPos, oldPos), vesselPos);
        && (probed == [] ==> isCollision == old(isCollision))
        && LastVerdict(objects, probed, isCollision, ray)
        && vesselAuto.levels == ScanLevels(objects, probed, old(vesselAuto.levels), vesselAuto, ray, vesselPos)
    {
      dest := Vec3(jupiter.x, jupiter.y, jupiter.z);
      // get the initial position of the vessel
      currentPos := vesselPos;
      if !Decisions.ArrivedAsWritten(currentPos, dest) {
        return NotEntered;
      }
      ghost var probed := ScanObjects(objects, vesselHandle, staleQuadrant, stalePlane);
      return Looping;
    }
  }

  /** A vessel far from the destination never runs a single pass of the loop. */
  lemma FarVesselNeverScans()
    ensures !Decisions.ArrivedAsWritten(Vec3(1000.0, 0.0, 0.0), Zero)
  {
  }
}
