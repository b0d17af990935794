# Radiation-Control navigation autopilot, modelled in Dafny

This project models the collision-avoidance and attitude logic of the
Radiation-Control autopilot, with doubles as mathematical reals. It has
four parts:

- **Ray-box intersectors.**
  - The software path of `RayBox` in src/raybox.cpp (module `RayBoxSoftware`).
  - The older Orbiter-side copy in RayBox.cpp (module `RayBoxLegacy`).
  - Both share the slab-method loops of module `Slab`: classification of
    the ray origin per axis, candidate planes, `maxT`, and the choice of
    the deciding plane.
  - Both are modelled as written. That includes the precedence defect in
    `maxT` and the missing braces in the newer copy's validation loop.
  - A corrected reference intersector, `RayBoxReference`, is proved sound and complete.
- **The UDP-driven autopilot `NavAP` of src/navap.cpp** (module `Navigation`).
  - `init`, `NavAPMain` with its arrival test, self-guard and bang-bang
    alignment loops, the `set*Speed`, `set*` and `get*` commands,
    `setupNewRay` and `collisionHandler`.
  - The simulator at the other end of the socket is the scripted `Host`
    (module `Host`). It holds the replies in order and logs every
    request, so contracts can say which requests were sent and which
    replies were used.
  - The pure decisions are in module `Decisions`: arrival, clamped set
    points, the bang-bang step, the dominant axis and the maneuver tags.
- **The older Orbiter autopilot of NavAP.cpp** (module `OrbiterAutopilot`).
  - `getRCSThrustByDelta`, and the thruster-group updates of `set*Speed`
    over a level map.
  - `setPitch`/`setRoll`, `init`, the object scan of `NavAPMain` and its
    dominant-axis adjustment.
- **The command line of src/main.cpp** (module `CommandLine`). A
  left-to-right scan with early exits, proved equal to a description of
  the outcome that does not use the scan.

Modelling conventions:

- **Vectors.** `v3` is `Vectors.Vec3`. `At(0)`, `At(1)`, `At(2)` are `x`,
  `y`, `z`, as in the union of src/inc/types.h.
- **Distances.** `getDistance`'s square root is dropped, so distances are
  compared squared: 1e9 becomes 1e18 (`Decisions.SquaredThreshold`).
- **Angles.** `atan2` is the uninterpreted function `bearing`.
- **Uninitialised C++ locals.** Where one can influence a result, it is an
  explicit parameter: `staleHit`, `staleQuadrant`/`stalePlane`, and the
  `Stale` record of the autopilot.
- **Unbounded loops.** These take a `fuel` bound.

## Model

| member | source | states |
|---|---|---|
| Vectors.ComponentsDetermine | src/inc/types.h:8-11 | the indexed view `data[0..2]` and the named view `x, y, z` determine each other: equal components mean equal vectors |
| Vectors.Sub | src/navap.cpp:750-753 | the difference vector is the componentwise difference on every axis |
| Vectors.DotSymmetric | src/navap.cpp:636-641 | the dot product does not depend on the order of its arguments |
| Vectors.SquaredLength | src/navap.cpp:587-595 | the squared length that `getDistance` takes the root of is never negative |
| Vectors.SquaredLengthOfScale | src/navap.cpp:684-689 | scaling a vector by k scales its squared length by k squared |
| Vectors.Normalise | src/navap.cpp:684-689 | each component is divided by the given length, so the result is the vector scaled by 1/length |
| Vectors.NormaliseGivesUnitLength | src/navap.cpp:684-689 | dividing by the true length gives a vector of length 1 |
| Slab.ClassifyMeaning | src/raybox.cpp:56-73 | LEFT iff the origin is strictly below the lower face and RIGHT iff strictly above the upper face; MIDDLE iff it is within the closed slab, so faces count as MIDDLE |
| Slab.Plane | src/raybox.cpp:59-70 | the candidate plane of a non-MIDDLE axis is the face the ray must cross: the lower face for LEFT, the upper for RIGHT |
| Slab.CandidatePlanes | src/raybox.cpp:56-73 | the loop leaves each axis's classification, its crossed face where not MIDDLE, and `inside` true iff every axis is MIDDLE |
| Slab.Distances | src/raybox.cpp:84-88 | `maxT[i]` is -1 on a MIDDLE axis or zero direction component, else `candidatePlane[i] - origin[i] / direction[i]` as written |
| Slab.FirstMax | src/raybox.cpp:91-94 | the chosen index holds a largest `maxT` and every earlier index is strictly smaller, so ties go to the lowest index |
| Slab.ChoosePlane | src/raybox.cpp:91-94 | the plane-choice loop returns the first index of the maximal `maxT` |
| Slab.FirstMaxUnique | src/raybox.cpp:91-94 | there is only one first index of the maximum |
| Slab.ChosenNonNegativeIsFace | src/raybox.cpp:84-97 | a chosen plane with non-negative `maxT` is a non-MIDDLE axis with a non-zero direction component |
| Slab.InsideIffInBox | src/raybox.cpp:56-81 | the `inside` flag holds exactly for origins in the closed box, faces included |
| Slab.FindCandidatePlanes | src/raybox.cpp:329-342 | the classification of `findCollisionCoord` writes only axes outside the slab; the others keep the uninitialised content |
| Slab.Land | src/raybox.cpp:357-365 | the collision coordinate is the candidate plane on the chosen axis and `origin + maxT * direction` on the others |
| Slab.FoundCoordWhenOutsideEverySlab | src/raybox.cpp:316-367 | with the origin outside every slab, `findCollisionCoord` reads nothing stale and uses the same distances and plane as `intersect` |
| RayBoxSoftware.RayBox.constructor | src/raybox.cpp:29-35 | the box is centred on the given position with width and height exactly twice the radius; the flag starts false |
| RayBoxSoftware.RayBox.Destroy | src/raybox.cpp:37-42 | the destructor clears the found-flag and changes nothing else |
| RayBoxSoftware.RayBox.Intersect | src/raybox.cpp:45-114 | result and cache after the call are those of `IntersectEffect` on the box, the ray, the stale `hitCoord` and the cache before; box and ray field unchanged |
| RayBoxSoftware.RayBox.Validate | src/raybox.cpp:98-113 | the brace-less validation loop stops at the first unchosen axis: flag cleared, false returned, coordinate overwritten only if that axis is out of its slab |
| RayBoxSoftware.FirstUnchosen | src/raybox.cpp:98-106 | the loop stops at axis 1 when plane 0 is chosen and at axis 0 otherwise, never at the chosen axis |
| RayBoxSoftware.PartialHit | src/raybox.cpp:98-104 | the partial `hitCoord` holds the hit coordinate on the stopping axis and the face on axis 0 when plane 0 was chosen; the rest is stale |
| RayBoxSoftware.HitIffOriginInBox | src/raybox.cpp:45-114 | as written, `intersect` returns true if and only if the ray origin lies in the closed box |
| RayBoxSoftware.InsideCachesOrigin | src/raybox.cpp:76-81 | an origin in the box returns true, caches the origin and sets the flag |
| RayBoxSoftware.BehindKeepsCache | src/raybox.cpp:97 | an outside origin with negative chosen `maxT` returns false and leaves coordinate and flag unchanged |
| RayBoxSoftware.ReachesValidation | src/raybox.cpp:97-98 | past the behind-the-ray test, the outcome is that of the validation loop on the chosen plane |
| RayBoxSoftware.StopOutcomeClears | src/raybox.cpp:100-106 | the validation loop always clears the flag; it keeps the coordinate iff the tested hit is in its slab, else stores the partial `hitCoord` |
| RayBoxSoftware.StopOutcomeIdempotent | src/raybox.cpp:100-106 | running the validation loop again on its own result changes nothing |
| RayBoxSoftware.OutsideClearsFlag | src/raybox.cpp:98-107 | an outside origin with non-negative chosen `maxT` returns false and clears the flag; coordinate overwritten only when the first unchosen hit is out of bounds |
| RayBoxSoftware.IntersectIdempotent | src/raybox.cpp:45-114 | a second `intersect` with the same ray and the same stale bits gives the same result and cache as the first |
| RayBoxSoftware.RayBox.FindCollisionCoord | src/raybox.cpp:316-368 | the flag ends true and the coordinate is the chosen face on the chosen axis and the ray point on the others, computed with the stale arrays where unwritten |
| RayBoxSoftware.FindAfterHitReadsOnlyStale | src/raybox.cpp:329-342 | after a hit of this intersector every quadrant and candidate plane `findCollisionCoord` reads is uninitialised content |
| RayBoxSoftware.RayBox.GetCollisionCoord | src/raybox.cpp:372-380 | with the flag false the by-value parameter is returned unchanged; with it set, it is the cached coordinate; the object never changes |
| RayBoxLegacy.RayBox.constructor | RayBox.cpp:16-22 | the box is centred on the given position with width and height twice the radius; the flag starts false |
| RayBoxLegacy.RayBox.Destroy | RayBox.cpp:24-29 | the destructor clears the found-flag and nothing else |
| RayBoxLegacy.RayBox.Intersect | RayBox.cpp:32-96 | the result is `LegacyHit`; box, ray field and flag never change; the coordinate becomes the origin in the inside case and is untouched otherwise |
| RayBoxLegacy.CheckCandidate | RayBox.cpp:84-95 | the braced validation loop returns true iff every unchosen axis's hit coordinate is within its slab |
| RayBoxLegacy.RayBox.IntersectTwice | RayBox.cpp:32-96 | two calls with the same ray give the same verdict and leave the object as one call does |
| RayBoxLegacy.InsideIsHit | RayBox.cpp:63-67 | an origin inside or on the box is a hit |
| RayBoxLegacy.BehindIsMiss | RayBox.cpp:83 | an outside origin with a negative chosen `maxT` is a miss |
| RayBoxLegacy.OutsideHitIffUnchosenInSlab | RayBox.cpp:84-95 | for an outside origin with non-negative chosen `maxT`, a hit iff every unchosen axis's hit coordinate lies in [centre - width/2, centre + width/2] |
| RayBoxLegacy.RayBox.FindCollisionCoord | RayBox.cpp:102-154 | the flag ends true and the coordinate is the chosen face on the chosen axis and the ray point on the others |
| RayBoxLegacy.RayBox.GetCollisionCoord | RayBox.cpp:158-166 | with the flag false the parameter comes back unchanged; with it set, it is the cached coordinate |
| RayBoxReference.FixedTs | src/raybox.cpp:84-88 | the intended distances `(candidatePlane - origin) / direction`, -1 on MIDDLE or zero-direction axes |
| RayBoxReference.ChosenFaceOnRay | src/raybox.cpp:84-97 | with the intended distance, the ray reaches the chosen face exactly at the chosen parameter |
| RayBoxReference.ReferenceSound | src/raybox.cpp:45-114 | every point the corrected intersector reports is in the closed box and on the ray at a non-negative parameter |
| RayBoxReference.ReferenceComplete | src/raybox.cpp:45-114 | whenever a point of the ray at a non-negative parameter lies in the closed box, the corrected intersector reports a hit |
| RayBoxReference.CrossedBefore | src/raybox.cpp:84-88 | on an axis the origin lies outside of, a ray that reaches the slab at t >= 0 has a non-zero direction and its intended distance lies in [0, t] |
| RayBoxReference.StillInSlab | src/raybox.cpp:98-110 | a slab that holds the ray point at t holds it at every earlier parameter past the axis's own crossing |
| RayBoxReference.MissingBracesCounterexample | src/raybox.cpp:103-106 | a ray from (5,0,0) along -x: the newer intersector misses, the braced copy and the reference hit at (1,0,0) |
| RayBoxReference.PrecedenceCounterexample | src/raybox.cpp:86 | a ray from (2,0,0) along +x moving away: `maxT` as written is 0.8 and the braced copy reports a hit; the intended distance is -0.1 and the reference misses |
| Host.Trunc | src/udpserver.cpp:130-170 | an integer reply is the parsed number truncated toward zero: within 1 of it, below for positives and above for negatives |
| Host.TruncOdd | src/udpserver.cpp:130-170 | truncation treats x and -x alike |
| Host.TruncIsOne | src/navap.cpp:104-109 | an `IS_VESSEL` reply reads as 1 exactly when the parsed number lies in [1, 2) |
| Host.Host.QueryReal | src/udpserver.cpp:175-215 | a `double` query logs its request and returns the next reply |
| Host.Host.QueryInt | src/udpserver.cpp:130-170 | an `int` query logs its request and returns the next reply truncated |
| Host.Host.QueryVector | src/udpserver.cpp:223-268 | a `v3` query logs one request and reads the next three replies as x, y, z |
| Decisions.ArrivedAtDestination | src/navap.cpp:90-92 | with the y bound corrected, a vessel exactly at the destination has arrived |
| Decisions.ArrivalCounterexample | src/navap.cpp:90-92 | as written, a vessel exactly at (100, 0, 0) with that destination fails the arrival test |
| Decisions.ArrivalAgreesWhenXEqualsY | src/navap.cpp:90-92 | the test as written and the corrected one agree exactly when the destination's x and y are equal |
| Decisions.ClampAngle | src/navap.cpp:421-422 | the target is cut to [-1.5, 1.5], unchanged inside it |
| Decisions.ApproachSpeed | src/navap.cpp:429-432 | 0.1 * (current - target) clamped to [-0.04, 0.04]: positive iff current > target, negative iff below, exact within 0.4 |
| Decisions.PitchCommand | src/navap.cpp:419-434 | whatever the target and the current pitch, the speed `setPitch` commands has magnitude at most 0.04 |
| Decisions.RollCommand | src/navap.cpp:456-470 | whatever the roll and the current bank, the speed `setRoll` commands has magnitude at most 0.04 |
| Decisions.YawCommand | src/navap.cpp:505-520 | whatever the target and the current yaw, the speed `setYaw` commands has magnitude at most 0.04 |
| Decisions.TargetsBeyondLimitAreCut | src/navap.cpp:419-520 | a pitch target above 1.5 acts as 1.5 and a yaw target below -1.5 as -1.5; a roll is not cut: with the bank at 1.9 a roll of -2 commands -0.01 where -1.5 commands 0.04 |
| Decisions.BangBangStep | src/navap.cpp:203-223 | a command is -0.04 for a positive error and +0.04 for a negative one, and records set and that side; no command leaves the state; reachable states stay reachable |
| Decisions.BangBangCommandsOnSignChange | src/navap.cpp:203-223 | from a reachable state a non-zero error commands iff its side differs from the modifier, and the state becomes that side |
| Decisions.SameSignRepeatIsSilent | src/navap.cpp:203-223 | two consecutive errors of the same sign issue no second command |
| Decisions.CommandsSnoc | src/navap.cpp:203-235 | the commands for errors followed by e are those for the errors followed by e's own step |
| Decisions.CommandsAlternate | src/navap.cpp:203-235 | consecutive commands of an alignment loop negate each other; after a previous command the first new one opposes it |
| Decisions.DominantAxis | src/navap.cpp:779-785 | the index is the first one of maximal absolute separation (strict `>`) |
| Decisions.DominantAxisTieGoesToX | src/navap.cpp:779-785 | separation (3, 3, 1) selects axis 0 |
| Decisions.TagAfterReversal | src/navap.cpp:890-912 | a reversal resets the tag to 0; any other tag is kept |
| Decisions.ReversalUndoesInitial | src/navap.cpp:788-912 | for axes 0 and 1, the reversal the tag of the initial maneuver calls for is exactly its opposite: `setPitch(-0.08)` after `setPitch(0.08)`, `setRoll(-0.08)` after `setRoll(0.08)` |
| Decisions.SilentTagStaysSilent | src/navap.cpp:885-912 | from a tag that does not reverse, no number of shrinking distances ever reverses |
| Decisions.AtMostOneReversal | src/navap.cpp:885-912 | however often the distance shrinks, at most one reversal is issued per maneuver |
| Decisions.SquaredThreshold | src/navap.cpp:754-758 | for a non-negative distance d, d > 1e9 iff d squared > 1e18 |
| Decisions.SquaredOrder | src/navap.cpp:877-885 | for non-negative distances, comparing them and comparing their squares agree |
| Navigation.NavAP.constructor | src/navap.cpp:23-27 | the autopilot starts off course, with no iterations, no object size and a blank detail, and with valid state arrays |
| Navigation.NavAP.Init | src/navap.cpp:33-51 | every position and direction of vessel and destination is zeroed, then the destination is object 60's position, from one `GET_POS "60"` |
| Navigation.NavAP.SetNavDestination | src/navap.cpp:309-314 | the destination's position becomes the target and nothing else changes |
| Navigation.NavAP.SetBankSpeed | src/navap.cpp:356-370 | sends `GET_ANG_VEL` then `SET_BANK` with value minus the z rate; records delta and reply only at index 0 |
| Navigation.NavAP.SetPitchSpeed | src/navap.cpp:377-391 | as bank with the x rate, recorded only at index 1 |
| Navigation.NavAP.SetYawSpeed | src/navap.cpp:398-412 | as bank with value plus the y rate, recorded only at index 2 |
| Navigation.NavAP.SetPitch | src/navap.cpp:419-434 | sends `GET_PITCH`, `GET_ANG_VEL` and `SET_PITCH` with `PitchCommand` minus the x rate; records that difference and the `SET_PITCH` reply at index 1 only; nothing else changes |
| Navigation.NavAP.SetRoll | src/navap.cpp:456-470 | sends `GET_BANK`, `GET_ANG_VEL` and `SET_BANK` with `RollCommand` minus the z rate; records that difference and the reply at index 0 only |
| Navigation.NavAP.SetYaw | src/navap.cpp:505-520 | sends `GET_YAW`, `GET_ANG_VEL` and `SET_YAW` with `YawCommand` plus the y rate; records that difference and the reply at index 2 only |
| Navigation.NavAP.GetPitch | src/navap.cpp:441-449 | returns the reply to one `GET_PITCH "0"` and changes nothing else |
| Navigation.NavAP.GetBank | src/navap.cpp:477-484 | returns the reply to one `GET_BANK "0"` |
| Navigation.NavAP.GetYaw | src/navap.cpp:491-498 | returns the reply to one `GET_YAW "0"` |
| Navigation.NavAP.StopThrust | src/navap.cpp:707-713 | sends one `STOP_THRUST "0"` and discards the reply |
| Navigation.NavAP.SetupNewRay | src/navap.cpp:604-627 | the given position becomes the previous one; the ray starts at the new position along the step; box and cache untouched |
| Navigation.NavAP.Perform | src/navap.cpp:788-802 | the requests sent are exactly `ManeuverRequests` of the maneuver: none for no maneuver (nothing changes), else the three of `setPitch` or `setRoll` with the exact value commanded |
| Navigation.NavAP.ManeuverRequests | src/navap.cpp:419-470 | no maneuver sends nothing; a pitch maneuver three requests ending in `SET_PITCH`, a roll maneuver three ending in `SET_BANK` |
| Navigation.NavAP.RecordedGrows | src/navap.cpp:806-915 | a reversal recorded in the request log stays recorded as the log grows |
| Navigation.NavAP.Align | src/navap.cpp:203-235 | the first error is the angle given less the target and each later one is read from the position the pass before asked for; every error seen exceeds 0.2; the speeds are the bang-bang commands for those errors, so they alternate in sign; the requests are exactly those of the passes, and the `SET_YAW`/`SET_PITCH` requests among them are, in order, one per speed, with the speed corrected by the angular velocity read just before; a finished loop ends within 0.2 of the target |
| Navigation.NavAP.AlignStep | src/navap.cpp:224-232 | after the step's speed is sent, the main thrust is stopped and the new position is read; the angle returned is that position's bearing; nothing else of the autopilot changes |
| Navigation.NavAP.AlignAxes | src/navap.cpp:199-276 | on course only the stop is sent and the angles and vessel are unchanged; off course (`AxesRun`) the log is the yaw loop's requests, then, if that loop finished within 0.2, one stop and the pitch loop's requests, the pitch errors read from the reply after the stop; done means both angles end within 0.2 of the destination's |
| Navigation.NavAP.Difference | src/navap.cpp:750-753 | the collision vector loop computes the componentwise difference |
| Navigation.NavAP.CollisionHandler | src/navap.cpp:721-917 | far away iff the squared distance exceeds 1e18, and then nothing is sent; otherwise the requests start with the initial maneuver of the dominant axis (`setPitch(0.08)` for 0, `setRoll(0.08)` for 1) and every later request is a fresh ray's `GET_POS "0"` except the three of the reversal, if one was issued; the tag is 3, 5 or kept, and 0 after a reversal; a reversal, at most one, is `Reversal` of that tag, the opposite of the initial maneuver for axes 0 and 1; escaping leaves the vessel outside the box |
| Navigation.NavAP.Avoid | src/navap.cpp:806-847 | the outer loop ends only when a fresh ray misses, i.e. the vessel is out of the box; every request it sends is a `GET_POS "0"` probe except the three of its reversal; at most one reversal, `Reversal` of the tag at entry, after which the tag is 0; otherwise the tag is kept |
| Navigation.NavAP.KeepCourse | src/navap.cpp:852-915 | keeps `ReversalState`: at most one reversal, after which the tag is 0 and no longer reverses; a reversal it issues is `Reversal` of the tag at entry and its requests are in the log; every other request is a `GET_POS "0"` probe |
| Navigation.NavAP.Revert | src/navap.cpp:885-912 | sends exactly the requests of `Reversal` of the tag, sets the tag to `TagAfterReversal`, and keeps the reversal bookkeeping |
| Navigation.NavAP.Reprobe | src/navap.cpp:852-880 | a fresh ray and `intersect`; on a hit the new distance is the squared distance from the collision point, otherwise the old one |
| Navigation.NavAP.NavAPMain | src/navap.cpp:71-300 | starts with `GET_POS "0"` and `SET_THRUST "1"`; ends normally only at arrival, returns on a self object, holds once on course |
| Navigation.NavAP.ScanObjects | src/navap.cpp:102-163 | a count of 0 or less scans nothing; a self object ends the scan at once |
| Navigation.NavAP.CheckObject | src/navap.cpp:104-162 | after an `IS_VESSEL` reply of 1 nothing else is asked; otherwise position, vessel position and size are read, and `isCollision` iff the vessel is in the object's box |
| Navigation.NavAP.ProbeObject | src/navap.cpp:113-162 | the ray-box test on the object's box from the new position, then the handler on a hit |
| Navigation.NavAP.ReadObject | src/navap.cpp:113-138 | reads the object's position, keeps the old vessel position as previous, reads the new one, then the object size |
| Navigation.NavAP.Steer | src/navap.cpp:164-298 | alignment runs only when off course, then the autopilot is on course; once on course only four requests are sent and holding is decided by the new angles |
| Navigation.NavAP.StopAndLocate | src/navap.cpp:224-230 | sends `STOP_THRUST "0"` then `GET_POS "0"`, and the vessel's position becomes the reply to the latter; nothing else changes |
| Navigation.AlignReplies | src/navap.cpp:203-235 | each pass of an alignment loop uses at least four replies (eight with a speed), so the reply pointer moves on |
| Navigation.AlignRepliesSnoc | src/navap.cpp:203-235 | one more error uses the replies of its own pass after those of the passes before |
| Navigation.NavAP.AlignRequestsSnoc | src/navap.cpp:203-235 | one more error adds the requests of its own pass, from the reply where the passes before left off |
| Navigation.NavAP.ErrorsFrom | src/navap.cpp:203-235 | n passes see n errors |
| Navigation.NavAP.ErrorsReadSnoc | src/navap.cpp:224-232 | the error of the next pass is the angle read at the end of the passes before |
| Navigation.BracketedSnoc | src/navap.cpp:203-223 | a pass with an error beyond 0.2 keeps the bracketing state and the speeds those of the bang-bang steps |
| Navigation.NavAP.StepSpeeds | src/navap.cpp:203-232 | a pass sends one `SET_YAW`/`SET_PITCH` request when its step has a speed, with that speed corrected by the angular velocity, and none otherwise |
| Navigation.NavAP.SpeedRequestsAt | src/navap.cpp:398-412 | the i-th speed request is that of the i-th speed with the i-th reply read |
| Navigation.NavAP.AlignSendsSpeeds | src/navap.cpp:203-235 | the speed requests of the passes are exactly one per bang-bang command, in order, each with the reply read just before it |
| Navigation.NavAP.TraceSpeeds | src/navap.cpp:203-235 | the speeds of a loop's trace alternate in sign and go out one per speed request, in order |
| Navigation.NavAP.LoggedSnoc | src/navap.cpp:224-232 | a pass appends its own requests to the log and moves the reply pointer past its replies |
| Navigation.NavAP.TraceSnoc | src/navap.cpp:203-235 | a pass keeps the whole trace: bracketing state, errors read, last angle and log |
| Navigation.NavAP.AlignPass | src/navap.cpp:204-234 | one pass extends the errors by the current error and keeps the trace; only the vessel's position changes |
| Navigation.NavAP.AlignLoop | src/navap.cpp:203-235 | the loop keeps the trace of its passes from its first reply and log, and leaves the rest of the state alone |
| Navigation.NavAP.AlignOffCourse | src/navap.cpp:203-276 | the yaw loop, then the stop and the pitch loop only if the yaw loop finished; the log and errors are as `AxesRun` records |
| Navigation.NavAP.StopAndAlignPitch | src/navap.cpp:238-276 | one stop, then the pitch loop, whose errors are read from the reply after the stop; after a finished yaw loop this completes `AxesRun` |
| Navigation.NavAP.YawThenPitch | src/navap.cpp:203-276 | a finished yaw loop followed by the stop and the pitch loop is recorded as such by `AxesRun` |
| Navigation.ProbesJoin | src/navap.cpp:806-915 | two stretches of the log that hold only probes and the same reversal make one such stretch |
| Navigation.NavAP.AvoidPass | src/navap.cpp:806-915 | one pass of the outer loop keeps `AvoidState` (at most one reversal, recorded; otherwise probes only; tag kept or 0); an escape leaves the vessel outside the box |
| Navigation.NavAP.HandleHit | src/navap.cpp:155-162 | without a hit nothing is sent and no reply is used |
| Navigation.NavAP.MainPass | src/navap.cpp:94-298 | a pass of the navigation loop never ends it with `Arrived`; it ends it on a self object (with the `IS_VESSEL` request and reply of 1 last) or when holding on course; the iteration count never decreases |
| OrbiterAutopilot.RCSThrust | NavAP.cpp:441-451 | 20 * delta + 0.01 clamped to [-1, 1]; zero iff that is exactly 0; same sign; exact within range |
| OrbiterAutopilot.PairLevels | NavAP.cpp:391-404 | both groups of the pair are set, every other group keeps its level, and no new groups appear |
| OrbiterAutopilot.PairFiresAtMostOne | NavAP.cpp:391-404 | at most one group of the pair is non-zero; delta 0 leaves both 0; delta > 0 fires the positive group |
| OrbiterAutopilot.SmallNegativeDeltaGivesNegativeLevel | NavAP.cpp:398-403 | for -0.0005 < delta < 0 the negative group gets a negative level, e.g. -0.008 at delta -0.0001 |
| OrbiterAutopilot.SetPoint | NavAP.cpp:229-232 | half the angle, capped at 0.1 from above only |
| OrbiterAutopilot.SetPointHasNoLowerCap | NavAP.cpp:229-232 | an angle of -3 asks for -1.5 |
| OrbiterAutopilot.AdjustedLeavesOtherPair | NavAP.cpp:222-256 | axis 0 leaves pitch alone and axis 1 leaves bank alone; both drive yaw |
| OrbiterAutopilot.ProbedIndicesMeaning | NavAP.cpp:135-144 | an object is probed iff it is in range and its handle is not the vessel's |
| OrbiterAutopilot.ScanLevelsOfMisses | NavAP.cpp:135-256 | a pass in which no probed object is hit leaves every thruster level as it was |
| OrbiterAutopilot.ScanLevelsKeepKeys | NavAP.cpp:135-256 | a pass never removes a thruster group from the level map |
| OrbiterAutopilot.ScanLevelsSnoc | NavAP.cpp:135-256 | probing one more object applies its adjustment, if hit, after those of the earlier objects |
| OrbiterAutopilot.Vessel.SetThrusterGroupLevel | NavAP.cpp:396-403 | only the named group's level changes |
| OrbiterAutopilot.Vessel.SetThrusterLevel | NavAP.cpp:102-103 | only the named thruster's level changes |
| OrbiterAutopilot.NavAP.constructor | NavAP.cpp:37-50 | starts at index 0 and runs `init(OBJHANDLE)`, so entry 0 is cleared and the index is 1 |
| OrbiterAutopilot.NavAP.StopAllThrusters | NavAP.cpp:102-103 | every thruster of the vessel ends at level 0 |
| OrbiterAutopilot.NavAP.InitHandle | NavAP.cpp:82-106 | clears the history, clears `isActive` and `isSet` at `activeIndex` only, adds exactly 1 to the index, and stops all thrusters of a non-null vessel |
| OrbiterAutopilot.NavAP.InitIndex | NavAP.cpp:58-79 | clears the entry at the given index only and makes it the active index |
| OrbiterAutopilot.NavAP.SetBankSpeed | NavAP.cpp:391-404 | the bank pair is reset then set from delta = value minus the z rate; nothing else changes |
| OrbiterAutopilot.NavAP.SetPitchSpeed | NavAP.cpp:408-421 | the pitch pair, delta = value minus the x rate |
| OrbiterAutopilot.NavAP.SetYawSpeed | NavAP.cpp:425-438 | the yaw pair, delta = value plus the y rate |
| OrbiterAutopilot.NavAP.SetPitch | NavAP.cpp:454-465 | returns 0 and drives the pitch pair with `PitchCommand` (input clamped to ±1.5, speed to ±0.04, negated) |
| OrbiterAutopilot.NavAP.SetRoll | NavAP.cpp:468-484 | returns 0 and drives the bank pair with `RollCommand` (input negated, not clamped) |
| OrbiterAutopilot.NavAP.Adjust | NavAP.cpp:220-256 | the levels become `Adjusted` for the axis: bank and yaw for 0, pitch and yaw for 1, nothing for 2 |
| OrbiterAutopilot.NavAP.Collides | NavAP.cpp:147-171 | a fresh box around the object, tested with the ray from the current position along the last step, gives the braced copy's hit verdict |
| OrbiterAutopilot.NavAP.Respond | NavAP.cpp:175-256 | after a hit, the adjustment is for the dominant axis of the separation from the object's centre |
| OrbiterAutopilot.NavAP.Probe | NavAP.cpp:147-256 | the verdict is the braced copy's hit test on the object's box; a miss changes no level, a hit adjusts for the dominant axis |
| OrbiterAutopilot.NavAP.ScanObjects | NavAP.cpp:135-256 | the objects probed are exactly those whose handle is not the vessel's, in order; `isCollision` is the last one's verdict; the levels are `ScanLevels`: each hit applies its dominant-axis adjustment, in order |
| OrbiterAutopilot.NavAP.Visit | NavAP.cpp:147-256 | one probed object: `isCollision` becomes its verdict and the levels advance by one step of `ScanLevels` |
| OrbiterAutopilot.NavAP.NavAPMain | NavAP.cpp:109-256 | the destination is Jupiter's position; the loop body runs iff the vessel already passes the arrival test as written; a pass leaves `isCollision` as the last probe's verdict and the levels as `ScanLevels` of the probed objects |
| OrbiterAutopilot.FarVesselNeverScans | NavAP.cpp:130-132 | a vessel 1000 away from the destination never enters the loop |
| CommandLine.Finish | src/main.cpp:57-63 | an empty address exits with 1; otherwise the autopilot starts with the gathered settings, even with no file |
| CommandLine.ParseArgs | src/main.cpp:21-63 | the scan with its early returns gives exactly `Parse(args)` |
| CommandLine.LastValueShift | src/main.cpp:35-54 | assigning an option's value at position lo is the same as searching backwards from one position later with that value as default |
| CommandLine.ScanOutcome | src/main.cpp:25-55 | the scan from any position equals the outcome: help wins, a dangling option fails, else the last values and any debug flag |
| CommandLine.ParseIsOutcome | src/main.cpp:21-63 | `main`'s result is the outcome description on every argument list |
| CommandLine.HelpAnywhereExitsZero | src/main.cpp:27-30 | `-h`/`--help` anywhere after the program name exits with 0, even with no address yet |
| CommandLine.RunNeedsAddress | src/main.cpp:45-63 | the autopilot starts only with a non-empty address, the value of the last `-i`; debug is 1 iff `-d` appeared |
| CommandLine.OptionValueIsRescanned | src/main.cpp:25-55 | an option's value is scanned again: `-i -h` exits 0, `-f -i` exits 1, a later `-i` overrides an earlier one |

## Left out

- The OpenCL paths are not part of this model: `rayOpenCL`, `intersectOpenCL`, src/opencl.cpp, src/compute.cpp and the device buffers. They are foreign-library calls.
- UDP transport and `atof` parsing are replaced by the scripted `Host`. Replies are reals, and a reply that does not parse is not modelled.
- `std::to_string` formatting of `Value` details is kept as the number. Its six-decimal rendering is not modelled.
- Member `operation` strings: each request records its operation. The member string itself is not kept, since it follows from the last request.
- Transcendental functions:
  - `atan2` is the uninterpreted `bearing`.
  - `sqrt` is dropped by comparing squared distances.
  - `acos`, `getHeading`, `setDir`, `getRelativeHeadingAngle`, `findAngleFromDot`, `getComponentAngle` and `getAirspeedAngle` are not modelled. None of them is called from the modelled paths.
- IEEE rounding, infinities and NaN are not modelled.
  - `Vectors.Normalise`: requires a non-zero length. A zero length gives infinities or NaN in the source.
  - `abs` applied to doubles is taken as the real absolute value.
- The fine-trim hold loop of src/navap.cpp:286-298 is not modelled. Its guard does not change in its body, so once entered it never ends. `NavAPMain` reports this as the `Holding` outcome. The loop's `usleep` calls and `getCurrentRotVel` are not modelled.
- Navigation.NavAP.NavAPMain, Navigation.NavAP.Align, Navigation.NavAP.CollisionHandler: loops without a bound in the source are bounded by a `fuel` parameter. Running out is a separate outcome, with weaker promises than ending normally.
- `NavAP::check_ping` and the endless connection loops of src/main.cpp:65-73 are not modelled. They are socket I/O.
- All printing (`cout`, `printf`, `cerr`, `show_help`) is left out.
- `setupNewRay` takes the vessel's position by pointer. The model passes it by value, which is the same here, because the position is read before it is overwritten.
- NavAP.cpp `pathCollision` loop (lines 259-309): not modelled. It writes the vessel position through the uninitialised pointer `newPosition`, so its behaviour is undefined. `OrbiterAutopilot.NavAP.Probe` stops after the adjustment.
- OrbiterAutopilot.NavAP.constructor: NavAP.cpp never assigns `vesselAuto` (NavAP.h:52) or `oldPos` (NavAP.h:55), so every `vesselAuto->` call dereferences an uninitialised pointer and the ray direction reads an indeterminate `oldPos`. The model takes `vesselAuto` as a constructor argument and starts `oldPos` at the origin. The contracts of `ScanObjects`, `Probe` and `NavAPMain` speak of `oldPos` as a field, so they hold whatever value it has.
- Navigation.NavAP.constructor: sets `completedRCSOperations` to 0, which src/inc/navap.h leaves uninitialised. No contract depends on that value: the collision handler's contracts are stated relative to the tag it finds.
- OrbiterAutopilot.NavAP.NavAPMain: models one pass of the loop. Nothing in the body changes either position, so once entered the loop never ends.
- NavAP.cpp `findCollisionCoord`'s collision coordinate, direction and `getDistance` result (lines 175-191) are not modelled. They are computed and never used.
- The `g_Dest[...].hObject` assignments in NavAP.cpp: not modelled. `struct Dest` has no such member. The entries keep only `isSet` and `isActive`, the fields `init` touches.
- `setNavDestination` of NavAP.cpp (lines 325-334) is not modelled. It returns an uninitialised vector and has no caller.
- OrbiterAutopilot.NavAP.InitHandle, OrbiterAutopilot.NavAP.InitIndex: require the index to be within the 256 entries of `g_Dest`. Outside it the source writes out of bounds.

## Findings

| source | as written | input that shows it | evidently intended | confidence | as-written member | corrected member |
|---|---|---|---|---|---|---|
| src/raybox.cpp:103-106 | the `if` testing the hit coordinate has no braces, so `isCoordFound = false; return` run at the first unchosen axis whatever the test says | ray from (5,0,0) along -x against the box of centre 0 and width 2: reported as a miss | return false only when the hit coordinate is outside its slab, as the braced RayBox.cpp:89-90 does | not executed | RayBoxSoftware.HitIffOriginInBox | RayBoxLegacy.OutsideHitIffUnchosenInSlab |
| src/raybox.cpp:86 | `candidatePlane[i] - origin[i] / direction[i]`, which by precedence divides only the origin | ray from (2,0,0) along +x (direction 10) against the same box: `maxT` 0.8, so RayBox.cpp reports a hit on a ray moving away | `(candidatePlane[i] - origin[i]) / direction[i]`, here -0.1, a miss | not executed | RayBoxReference.PrecedenceCounterexample | RayBoxReference.ReferenceSound |
| src/navap.cpp:90-92 | the lower bound on y compares with `dest.x - 5` | vessel exactly at the destination (100, 0, 0) fails the test | compare y with `dest.y - 5` | not executed | Decisions.ArrivalCounterexample | Decisions.ArrivedAtDestination |
| NavAP.cpp:130-132 | the loop guard is the arrival test itself, not its negation | a vessel 1000 away from the destination never enters the loop; one at it loops forever | loop while the vessel has not arrived, as src/navap.cpp:90 does | not executed | OrbiterAutopilot.FarVesselNeverScans | Navigation.NavAP.NavAPMain |
