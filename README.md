# Code-Runner rope swing and player core, modelled in Dafny

Code-Runner is a Unity 2D platformer. The avatar runs, jumps, dashes, slides
down walls, wall-jumps, attacks and recoils. It also grabs hanging cables and
swings on them.

This project models the gameplay logic of those scripts and proves properties
about it:

- **Rope swing (the main subject).**
  - `PlayerSwingController` grabs a nearby grip while Jump is held.
    - While attached, it scales gravity and drives the pendulum along its tangent.
    - On release it inherits the grip's velocity, pops upward, locks the motor
      for a speed-dependent time, recovers gravity over a speed-dependent time,
      and pushes with short upward and sideways assists.
  - `SwingGrip` counts how many swingers hold it.
  - `HangingPlug` builds a chain of rigid bodies joined by hinges, with a grip
    on the last segment. It damps the chain harder while nobody holds it.
- **The avatar.**
  - `PlayerMotor`: walking speed, facing, the knockback lock.
  - `PlayerAbilities`: jump, air jump, jump cut, wall slide, wall jump, dash,
    and the dash gauge.
  - `PlayerStateMachine`: the reported locomotion state.
  - `PlayerCombat`: attack direction, recoil, hit-stop.
  - `PlayerMovement`: the per-frame order in which the others run.
  - `HealthManager`: damage, healing, death, the fall floor, the health bar.
- **Enemies.**
  - `Enemy`: health, recoil timer, death, contact damage and knockback.
  - `BossScript`: a jumping boss that turns toward the player.
- **World progress.**
  - `PlayerProgress`: unlocked abilities, keyfiles, discovered rooms.
  - `GateRules`, `AbilityGate`, `WorldGraph` and `FinishLevel`: which exits
    and doors the player may pass, and the level change.
- **UI.**
  - `ToolbarUI` and `ToolbarItem`: the item slots and the selection.

Modelling conventions:

- A C# `float` is a `real`: rounding is not modelled.
- A nullable string is `Option<string>`.
- A component the scripts update in place is a `class` whose methods name what
  they modify.
- Each such class has a ghost `State()` snapshot. Its methods are proved
  against pure `*Step` functions, and the properties are proved about those
  functions.
- The physics engine is not simulated. Bodies are records of the state that
  the scripts read and write.
- `AddForce` calls are returned as a list of `Force` records.
- Frame times, probes (ground, wall, trigger overlaps) and input arrive as
  parameters.
- C# exceptions that the code can raise are returned as a `threw` flag.

Each file holds one module: `unity_math`, `engine`, `text`, `input`, `search` are
shared helpers; the others follow the game's classes one to one.

## Model

| member | source | states |
|---|---|---|
| Swing.IgnoresJumpCut | Assets/Scripts/Player/PlayerSwingController.cs:127-128 | Whenever the swing blocks the motor it also suppresses the jump cut. |
| Swing.GravityMultiplier | Assets/Scripts/Player/PlayerSwingController.cs:338-342 | The attached gravity multiplier is the single one, or the up/down one chosen by whether the body rises faster than 0.01; with inspector ranges it lies in [0.1, 1.5]. |
| Swing.ReleaseVelocity | Assets/Scripts/Player/PlayerSwingController.cs:190-199 | The captured release velocity is the grip point's exactly when inheriting is on, a body is connected and the grip point is strictly faster; otherwise it is the body's own, so it is never slower than the body's. |
| Swing.DetachPop | Assets/Scripts/Player/PlayerSwingController.cs:263-265 | The pop multiplies the vertical speed only when the assist is on and the body rises faster than the threshold; the horizontal speed is kept. |
| Swing.PopNeverSlower | Assets/Scripts/Player/PlayerSwingController.cs:263-265 | With a multiplier of at least 1, the pop never makes the body slower. |
| Swing.LockDuration | Assets/Scripts/Player/PlayerSwingController.cs:209-216 | The release motor lock is the fixed duration unless the speed-based lock is on. |
| Swing.LockDurationBounds | Assets/Scripts/Player/PlayerSwingController.cs:209-216 | The speed-based lock lies between its minimum and maximum, at the minimum below the low speed and at the maximum above the high speed. |
| Swing.LockDurationMonotone | Assets/Scripts/Player/PlayerSwingController.cs:209-216 | A faster horizontal release never gets a shorter motor lock. |
| Swing.RecoverDuration | Assets/Scripts/Player/PlayerSwingController.cs:221-232 | The gravity recovery time is never below 0.0001 s. |
| Swing.RecoverDurationBoundsAndMonotone | Assets/Scripts/Player/PlayerSwingController.cs:221-232 | The recovery time lies between the fast and slow times and grows with the upward release speed. |
| Swing.ArmTimer | Assets/Scripts/Player/PlayerSwingController.cs:242-260 | An armed assist timer becomes the larger of its old value and its duration; an unarmed one is cleared. |
| Swing.CountDown | Assets/Scripts/Player/PlayerSwingController.cs:293-306 | An assist timer counts down by the step and stops at zero, never below. |
| Swing.AttachStep | Assets/Scripts/Player/PlayerSwingController.cs:167-185 | Attaching swings, cancels recovery, remembers the gravity and scales it by the active multiplier; velocity and lock are untouched. |
| Swing.ReleaseLock | Assets/Scripts/Player/PlayerSwingController.cs:209-216 | The motor lock becomes the larger of the running lock and the release duration. |
| Swing.ReleaseGravity | Assets/Scripts/Player/PlayerSwingController.cs:221-239 | Speed-based release zeroes gravity and starts a recovery toward the remembered gravity; otherwise gravity becomes the remembered value times the multiplier. |
| Swing.ReleaseAssists | Assets/Scripts/Player/PlayerSwingController.cs:242-260 | The release arms only the assist timers and sign; the sideways timer is cleared below the speed threshold. |
| Swing.DetachStep | Assets/Scripts/Player/PlayerSwingController.cs:187-266 | After release the avatar is not swinging, the lock covers the release duration, and recovery starts from zero gravity exactly when speed-based gravity is on. |
| Swing.ReleaseNeverSlower | Assets/Scripts/Player/PlayerSwingController.cs:187-266 | With a pop multiplier of at least 1, letting go never slows the avatar. |
| Swing.ReleaseAssistsArmed | Assets/Scripts/Player/PlayerSwingController.cs:242-260 | Each assist is armed for the larger of its remaining and full time exactly when its speed test passes; the sideways sign follows the release velocity. |
| Swing.TickStep | Assets/Scripts/Player/PlayerSwingController.cs:144-165 | A frame copies the steering input; a swinging avatar stays on exactly while Jump is held; a free one attaches exactly when Jump is held and a grip is in reach; the lock runs down. |
| Swing.RecoveryStep | Assets/Scripts/Player/PlayerSwingController.cs:280-290 | A recovery step advances the elapsed time, and on finishing sets gravity exactly to the target. |
| Swing.RecoveryStepIsFraction | Assets/Scripts/Player/PlayerSwingController.cs:280-290 | During recovery, gravity is the target times the clamped elapsed fraction, and recovery continues exactly while that fraction is below one. |
| Swing.RecoveryCompletes | Assets/Scripts/Player/PlayerSwingController.cs:280-290 | Enough fixed steps to cover the duration end the recovery with gravity at the target. |
| Swing.StaysDone | Assets/Scripts/Player/PlayerSwingController.cs:280-290 | A finished recovery stays finished and unchanged. |
| Swing.GravityStep | Assets/Scripts/Player/PlayerSwingController.cs:273-290 | While attached outside a recovery, gravity is the remembered value times the active multiplier; a detached avatar outside a recovery is left alone. |
| Swing.AssistStep | Assets/Scripts/Player/PlayerSwingController.cs:293-306 | Assist timers only count down, never go negative, and are frozen while swinging. |
| Swing.FixedStep | Assets/Scripts/Player/PlayerSwingController.cs:268-336 | A physics step keeps swinging, velocity and lock; it shapes gravity while attached, and leaves the assist timers alone while swinging. |
| Swing.AttachedGravityStable | Assets/Scripts/Player/PlayerSwingController.cs:167-185 | The gravity set on attach is the one the next physics step keeps. |
| Swing.TangentDirection | Assets/Scripts/Player/PlayerSwingController.cs:332-333 | The drive direction is perpendicular to the rope, points the way the player steers and is as long as the rope vector. |
| Swing.UpAssistForces | Assets/Scripts/Player/PlayerSwingController.cs:293-298 | The upward assist pushes exactly when detached, enabled and its timer is running. |
| Swing.SideAssistForces | Assets/Scripts/Player/PlayerSwingController.cs:301-306 | The sideways assist pushes exactly when detached, enabled and its timer is running. |
| Swing.SteerForces | Assets/Scripts/Player/PlayerSwingController.cs:309-312 | Air steering pushes exactly when detached, the motor lock runs and the stick is past 0.01. |
| Swing.DriveForces | Assets/Scripts/Player/PlayerSwingController.cs:314-335 | The pendulum is driven exactly when swinging with the stick at or past 0.01. |
| Swing.FixedForces | Assets/Scripts/Player/PlayerSwingController.cs:292-335 | A physics step applies at most three forces, at most one while swinging, none with the stick centred, and only plain pushes while detached. |
| Swing.DriveIsTangent | Assets/Scripts/Player/PlayerSwingController.cs:314-335 | With a connected anchor away from the avatar, the single swinging force is tangent to the rope, follows the stick and has strength stick times drive force. |
| Swing.DetachedForces | Assets/Scripts/Player/PlayerSwingController.cs:292-312 | Detached, there are no forces exactly when no assist or steering is due and three exactly when all are; a due upward assist pushes straight up. |
| Swing.PlayerSwingController.constructor | Assets/Scripts/Player/PlayerSwingController.cs:130-142 | Awake remembers the body's gravity and prepares a disabled hinge without auto anchor or collision. |
| Swing.PlayerSwingController.ShouldBlockMotor | Assets/Scripts/Player/PlayerSwingController.cs:127-128 | Blocking the motor implies ignoring the jump cut. |
| Swing.PlayerSwingController.OnTriggerEnter | Assets/Scripts/Player/PlayerSwingController.cs:344-348 | Entering a grip's trigger makes it the nearby grip. |
| Swing.PlayerSwingController.OnTriggerExit | Assets/Scripts/Player/PlayerSwingController.cs:350-354 | Leaving the nearby grip's trigger forgets it; leaving another grip changes nothing. |
| Swing.PlayerSwingController.Attach | Assets/Scripts/Player/PlayerSwingController.cs:167-185 | Attaching connects the hinge to the grip's body at zero anchors, marks the grip grabbed once more and follows AttachStep; a missing grip changes nothing. |
| Swing.PlayerSwingController.Detach | Assets/Scripts/Player/PlayerSwingController.cs:187-266 | Detaching follows DetachStep, disables and disconnects the hinge and releases the nearby grip once. |
| Swing.PlayerSwingController.CaptureReleaseVelocity | Assets/Scripts/Player/PlayerSwingController.cs:190-199 | The captured velocity is ReleaseVelocity of the body. |
| Swing.PlayerSwingController.ApplyReleaseVelocity | Assets/Scripts/Player/PlayerSwingController.cs:263-265 | The body leaves with the popped release velocity. |
| Swing.PlayerSwingController.StartReleaseLock | Assets/Scripts/Player/PlayerSwingController.cs:209-216 | The lock follows ReleaseLock. |
| Swing.PlayerSwingController.StartReleaseGravity | Assets/Scripts/Player/PlayerSwingController.cs:221-239 | Gravity and recovery follow ReleaseGravity. |
| Swing.PlayerSwingController.ArmReleaseAssists | Assets/Scripts/Player/PlayerSwingController.cs:242-260 | The assist timers follow ReleaseAssists. |
| Swing.PlayerSwingController.Tick | Assets/Scripts/Player/PlayerSwingController.cs:144-165 | A frame follows TickStep. A release lets go of the grip once and disables and disconnects the hinge. An attach grabs the nearby grip once and enables the hinge on its body with both anchors at zero. Otherwise the grip count and the hinge are kept, and the hinge's configuration (auto anchor, collision, limits) is never touched. |
| Swing.PlayerSwingController.Steer | Assets/Scripts/Player/PlayerSwingController.cs:148-149 | The steering input is remembered and a running motor lock counts down by the frame time; nothing else of the swing changes. |
| Swing.PlayerSwingController.FixedUpdate | Assets/Scripts/Player/PlayerSwingController.cs:268-336 | A physics step follows FixedStep and applies exactly FixedForces. |
| Swing.PlayerSwingController.Anchor | Assets/Scripts/Player/PlayerSwingController.cs:318-319 | There is an anchor exactly when the hinge has a connected body. |
| Swing.PlayerSwingController.ShapeGravity | Assets/Scripts/Player/PlayerSwingController.cs:273-290 | Gravity follows GravityStep. |
| Swing.PlayerSwingController.ApplyAssists | Assets/Scripts/Player/PlayerSwingController.cs:292-306 | The assist timers follow AssistStep and the forces are the upward then the sideways assist. |
| Swing.PlayerSwingController.Drive | Assets/Scripts/Player/PlayerSwingController.cs:314-335 | The drive force is exactly DriveForces. |
| SwingGrips.CountAfter | Assets/Scripts/World/SwingGrip.cs:21-25 | A grab adds one holder; a release removes one but never goes below zero. |
| SwingGrips.Repeat | Assets/Scripts/World/SwingGrip.cs:21-25 | A run of n identical grab or release calls. |
| SwingGrips.CountNeverNegative | Assets/Scripts/World/SwingGrip.cs:21-25 | No sequence of grabs and releases makes the holder count negative. |
| SwingGrips.CountAfterAppend | Assets/Scripts/World/SwingGrip.cs:21-25 | Two runs of calls count as the second run applied after the first. |
| SwingGrips.GrabsAdd | Assets/Scripts/World/SwingGrip.cs:21-25 | n grabs add exactly n holders. |
| SwingGrips.ReleasesSubtract | Assets/Scripts/World/SwingGrip.cs:21-25 | n releases remove n holders, stopping at zero. |
| SwingGrips.GrabsThenReleasesEmpty | Assets/Scripts/World/SwingGrip.cs:21-25 | k grabs followed by k releases leave the grip free. |
| SwingGrips.SwingGrip.constructor | Assets/Scripts/World/SwingGrip.cs:12-19 | A new grip has no holders and is not grabbed. |
| SwingGrips.SwingGrip.SetGrabbed | Assets/Scripts/World/SwingGrip.cs:8-25 | The holder count follows CountAfter; after a grab the grip is grabbed. |
| Plugs.BodySlots | Assets/Scripts/World/HangingPlug.cs:92 | The body array has one slot per segment, and at least one. |
| Plugs.SegmentsStacked | Assets/Scripts/World/HangingPlug.cs:98 | Segment i is placed (i + 1) segment lengths below the anchor, so with a positive length later segments hang strictly lower. |
| Plugs.JointsMeet | Assets/Scripts/World/HangingPlug.cs:113-119 | For every segment after the first, the hinge's two anchors name the same point: its top end is the bottom end of the segment above. The first segment's top end starts half a length below the anchor's centre, where its hinge connects. |
| Plugs.LimitsFor | Assets/Scripts/World/HangingPlug.cs:121-128 | Bend limits are used exactly when the angle exceeds 0.01, symmetric around zero. |
| Plugs.DragFor | Assets/Scripts/World/HangingPlug.cs:47-49 | The drag is the grabbed pair or the idle pair; with idle values at least the grabbed ones, never below the grabbed ones. |
| Plugs.IdleDampsHarder | Assets/Scripts/World/HangingPlug.cs:9-17 | A check of the shipped defaults: with them, an idle chain is damped harder than a held one, linearly and angularly. |
| Plugs.Digits | Assets/Scripts/World/HangingPlug.cs:96 | A number prints as one or more decimal digits that read back as the number. |
| Plugs.TwoDigits | Assets/Scripts/World/HangingPlug.cs:96 | The `00` format prints at least two decimal digits that read back as the number. |
| Plugs.OnlyLastIsGrip | Assets/Scripts/World/HangingPlug.cs:96 | Only the last segment is named `PlugGrip`. |
| Plugs.SegmentNamesDistinct | Assets/Scripts/World/HangingPlug.cs:96 | Two different segment indices never get the same name. |
| Plugs.ChainLink.constructor | Assets/Scripts/World/HangingPlug.cs:94-144 | A built segment records its name, position, body, hinge and grip parts. |
| Plugs.HangingPlug.constructor | Assets/Scripts/World/HangingPlug.cs:5-35 | A new plug is not built yet. |
| Plugs.HangingPlug.BuildIfNeeded | Assets/Scripts/World/HangingPlug.cs:74-145 | Building once makes a static anchor at the plug's position and a fresh chain whose every segment is built as specified and hinged to the one above; a second call changes nothing. |
| Plugs.HangingPlug.BuildChain | Assets/Scripts/World/HangingPlug.cs:92-144 | The loop creates max(0, segmentCount) fresh links, stores their bodies in order, chains them from the top and keeps the last link's grip. |
| Plugs.HangingPlug.AppendSegment | Assets/Scripts/World/HangingPlug.cs:94-144 | One iteration appends a built segment hinged to the previous body, and keeps every earlier one. |
| Plugs.HangingPlug.StoreSegment | Assets/Scripts/World/HangingPlug.cs:100-143 | A new segment's body is stored at its index and its grip kept when it is the last. |
| Plugs.HangingPlug.BuildSegment | Assets/Scripts/World/HangingPlug.cs:96-141 | A segment has a fresh body, hinge and grip parts, all as specified, hinged to the previous body and named by its index. |
| Plugs.HangingPlug.NewSegmentBody | Assets/Scripts/World/HangingPlug.cs:97-105 | The body sits at its drop below the anchor with the configured mass and drag. |
| Plugs.HangingPlug.NewJoint | Assets/Scripts/World/HangingPlug.cs:113-128 | The hinge connects to the previous body at the meeting anchors with the bend limits. |
| Plugs.HangingPlug.NewGripParts | Assets/Scripts/World/HangingPlug.cs:130-141 | Only the last segment gets a trigger circle of the grip radius and a grip on its body. |
| Plugs.HangingPlug.FixedUpdate | Assets/Scripts/World/HangingPlug.cs:42-58 | Every segment body gets the grabbed or idle drag according to the grip; mass, position, velocity, gravity and body type of the bodies are kept. |
| Motor.MoveSpeedFor | Assets/Scripts/Player/PlayerMotor.cs:39-53 | An unslowed avatar walks at the configured speed. |
| Motor.SlowNeverFaster | Assets/Scripts/Player/PlayerMotor.cs:39-53 | With inspector ranges, being slowed never makes the avatar faster or negative. |
| Motor.FacedScale | Assets/Scripts/Player/PlayerMotor.cs:90-99 | Facing keeps the scale's size; it points right for a positive direction, left for a negative one, and is kept for a near-zero one. |
| Motor.FacingIdempotent | Assets/Scripts/Player/PlayerMotor.cs:90-99 | Facing the same direction twice is the same as once. |
| Motor.FlippedScale | Assets/Scripts/Player/PlayerMotor.cs:101-109 | A flip follows the stick, keeping the scale's size, and does nothing when blocked, locked or centred. |
| Motor.HorizontalStep | Assets/Scripts/Player/PlayerMotor.cs:55-81 | A physics step leaves everything when blocked or static; while locked only the lock runs down; otherwise the horizontal speed moves toward the target without overshooting and vertical speed is kept. |
| Motor.HorizontalSteps | Assets/Scripts/Player/PlayerMotor.cs:55-81 | Repeated steps keep the walking speed. |
| Motor.UnlockedStaysUnlocked | Assets/Scripts/Player/PlayerMotor.cs:55-81 | An expired knockback lock stays expired. |
| Motor.LockRunsOut | Assets/Scripts/Player/PlayerMotor.cs:55-81 | Unblocked steps covering the lock's length end it. |
| Motor.BlockedLockFrozen | Assets/Scripts/Player/PlayerMotor.cs:55-81 | While blocked, nothing moves and the lock does not run down. |
| Motor.PlayerMotor.constructor | Assets/Scripts/Player/PlayerMotor.cs:19-25 | Init walks at the configured speed with no lock. |
| Motor.PlayerMotor.TickSlowEffect | Assets/Scripts/Player/PlayerMotor.cs:39-53 | The walking speed follows MoveSpeedFor of the slowed flag. |
| Motor.PlayerMotor.FixedTickHorizontal | Assets/Scripts/Player/PlayerMotor.cs:55-81 | The body and lock follow HorizontalStep. |
| Motor.PlayerMotor.ApplyKnockback | Assets/Scripts/Player/PlayerMotor.cs:83-88 | The body takes the knockback velocity and the lock becomes the larger of the running and new lock. |
| Motor.PlayerMotor.FaceDirection | Assets/Scripts/Player/PlayerMotor.cs:90-99 | The scale follows FacedScale. |
| Motor.PlayerMotor.Flip | Assets/Scripts/Player/PlayerMotor.cs:101-109 | The scale follows FlippedScale, blocked by the lock. |
| StateMachine.ExactlyOneHolds | Assets/Scripts/Player/PlayerStateMachine.cs:3-22 | For every state, exactly one of the five `Is*` answers is yes. |
| StateMachine.PlayerStateMachine.constructor | Assets/Scripts/Player/PlayerStateMachine.cs:16 | The machine starts Grounded. |
| StateMachine.PlayerStateMachine.Set | Assets/Scripts/Player/PlayerStateMachine.cs:18-27 | After Set, the `Is*` answers are those of the new state, exactly one of them yes. |
| Abilities.ResetDoubleJumpStep | Assets/Scripts/Player/PlayerAbilities.cs:87-90 | Landing restores the air jump; in the air nothing changes. |
| Abilities.WallSlideStep | Assets/Scripts/Player/PlayerAbilities.cs:152-163 | The avatar slides exactly when walled, airborne and steering; sliding caps the fall speed at the slide speed. |
| Abilities.WallJumpWindow | Assets/Scripts/Player/PlayerAbilities.cs:167-177 | Sliding opens the wall-jump window at full length; otherwise the window runs down. |
| Abilities.WallJumpStep | Assets/Scripts/Player/PlayerAbilities.cs:165-190 | A press inside the window wall-jumps away from the wall with the configured velocity and closes the window. |
| Abilities.JumpStep | Assets/Scripts/Player/PlayerAbilities.cs:92-112 | A press with the jump in hand jumps at the jump speed, spending the air jump when airborne; otherwise nothing changes. |
| Abilities.JumpCutStep | Assets/Scripts/Player/PlayerAbilities.cs:114-121 | The vertical speed changes exactly when Jump is released, the swing allows it and the avatar rises, and then it halves. |
| Abilities.DashStep | Assets/Scripts/Player/PlayerAbilities.cs:123-140 | A press with a dash available and not wall-sliding dashes horizontally without gravity and resets the gauge; otherwise nothing changes. |
| Abilities.ReportedPriority | Assets/Scripts/Player/PlayerAbilities.cs:204-228 | The reported state is dashing, then wall-jumping, then wall-sliding, then grounded, then airborne, each exactly when the earlier ones fail. |
| Abilities.DashFill | Assets/Scripts/Player/PlayerAbilities.cs:197-202 | The dash gauge lies in [0, 1], empty at zero time and full after the cooldown. |
| Abilities.DashFillMonotone | Assets/Scripts/Player/PlayerAbilities.cs:197-202 | The gauge never empties as time passes. |
| Abilities.EnemyHitStep | Assets/Scripts/Player/PlayerAbilities.cs:80-85 | Hitting an enemy restores the air jump and the dash and adds one second to the gauge. |
| Abilities.TickStepUnlocked | Assets/Scripts/Player/PlayerAbilities.cs:45-77 | An unlocked, undashing frame runs the abilities in order and then reports the state. |
| Abilities.LockedOrDashingMovesNothing | Assets/Scripts/Player/PlayerAbilities.cs:53-65 | Under a knockback lock or during a dash only the gauge and the report change; a dash reports Dashing. |
| Abilities.AirJumpStaysSpent | Assets/Scripts/Player/PlayerAbilities.cs:87-112 | In the air, a spent air jump stays spent for the frame. |
| Abilities.JumpRises | Assets/Scripts/Player/PlayerAbilities.cs:92-102 | A jump press with the jump in hand, off the wall and without a dash, rises at the jump speed. |
| Abilities.PlayerAbilities.constructor | Assets/Scripts/Player/PlayerAbilities.cs:18-43 | Init starts with the air jump and the dash available, the gauge at one second and no slide, wall jump or dash. |
| Abilities.PlayerAbilities.Tick | Assets/Scripts/Player/PlayerAbilities.cs:45-77 | A frame follows TickStep, and the gauge shows DashFill unless a dash is running. |
| Abilities.PlayerAbilities.AdvanceGauge | Assets/Scripts/Player/PlayerAbilities.cs:49 | The gauge clock advances by the frame time. |
| Abilities.PlayerAbilities.AbilitiesAndReport | Assets/Scripts/Player/PlayerAbilities.cs:67-76 | The unlocked frame runs the abilities, updates the gauge and reports the state. |
| Abilities.PlayerAbilities.RunAbilities | Assets/Scripts/Player/PlayerAbilities.cs:67-72 | The abilities run in the order of the frame. |
| Abilities.PlayerAbilities.OnEnemyHit | Assets/Scripts/Player/PlayerAbilities.cs:80-85 | The state follows EnemyHitStep. |
| Abilities.PlayerAbilities.ResetDoubleJump | Assets/Scripts/Player/PlayerAbilities.cs:87-90 | The state follows ResetDoubleJumpStep. |
| Abilities.PlayerAbilities.TryJump | Assets/Scripts/Player/PlayerAbilities.cs:92-112 | The state follows JumpStep. |
| Abilities.PlayerAbilities.ReduceJumpHeightOnRelease | Assets/Scripts/Player/PlayerAbilities.cs:114-121 | The state follows JumpCutStep. |
| Abilities.PlayerAbilities.TryDash | Assets/Scripts/Player/PlayerAbilities.cs:123-140 | The state follows DashStep. |
| Abilities.PlayerAbilities.DashTimeElapsed | Assets/Scripts/Player/PlayerAbilities.cs:142-145 | The end of the dash restores the gravity it saved and stops dashing. |
| Abilities.PlayerAbilities.DashCooldownElapsed | Assets/Scripts/Player/PlayerAbilities.cs:147-149 | After the cooldown the dash comes back only if no newer dash reset the gauge. |
| Abilities.PlayerAbilities.WallSlide | Assets/Scripts/Player/PlayerAbilities.cs:152-163 | The state follows WallSlideStep. |
| Abilities.PlayerAbilities.WallJump | Assets/Scripts/Player/PlayerAbilities.cs:165-190 | The state follows WallJumpStep. |
| Abilities.PlayerAbilities.StopWallJumping | Assets/Scripts/Player/PlayerAbilities.cs:192-195 | Only the wall-jumping flag clears. |
| Abilities.PlayerAbilities.UpdateDashUi | Assets/Scripts/Player/PlayerAbilities.cs:197-202 | The gauge shows DashFill. |
| Abilities.PlayerAbilities.UpdateStateMachine | Assets/Scripts/Player/PlayerAbilities.cs:204-228 | Only the reported state changes, to the prioritised one. |
| Combat.AttackFor | Assets/Scripts/Player/PlayerCombat.cs:111-148 | No press, no attack; a level stick attacks sideways, up attacks up, down attacks down only in the air with a motor and otherwise not at all. |
| Combat.RecoilAxis | Assets/Scripts/Player/PlayerCombat.cs:157-177 | A landed side attack recoils horizontally and a landed up or down attack vertically. |
| Combat.RecoilVelocity | Assets/Scripts/Player/PlayerCombat.cs:191-212 | Horizontal recoil pushes against the facing at the recoil speed; vertical recoil pushes away from the attack; otherwise velocity is kept. |
| Combat.RecoilStep | Assets/Scripts/Player/PlayerCombat.cs:191-232 | Vertical recoil suspends gravity and its end restores the saved value; each recoil runs for its configured steps, vertical recoil also ending on landing. |
| Combat.HorizontalRecoilEnds | Assets/Scripts/Player/PlayerCombat.cs:191-226 | More steps than the horizontal count remaining end the horizontal recoil. |
| Combat.RecoilXStaysOff | Assets/Scripts/Player/PlayerCombat.cs:191-226 | Physics steps never start a horizontal recoil. |
| Combat.VerticalRecoilEnds | Assets/Scripts/Player/PlayerCombat.cs:191-232 | More steps than the vertical count remaining end the vertical recoil. |
| Combat.RecoilYStaysOff | Assets/Scripts/Player/PlayerCombat.cs:191-232 | Physics steps never start a vertical recoil. |
| Combat.GravityLeftAlone | Assets/Scripts/Player/PlayerCombat.cs:191-212 | Without vertical recoil, gravity is never touched. |
| Combat.RestoreStep | Assets/Scripts/Player/PlayerCombat.cs:85-98 | While restoring, time speeds up by speed times frame time until it reaches 1, where it snaps to 1 and stops restoring. |
| Combat.HitStopEnds | Assets/Scripts/Player/PlayerCombat.cs:85-98 | With a positive rate, enough frames bring time back to exactly 1 and end the restore. |
| Combat.StaysRestored | Assets/Scripts/Player/PlayerCombat.cs:85-98 | Once restored, time stays at 1. |
| Combat.AttackStep | Assets/Scripts/Player/PlayerCombat.cs:45-54 | A tick records the press, sets the attack timer to zero on a press and to the frame time otherwise, keeps the slowed and invincible flags, and moves time by RestoreStep. |
| Combat.AttackRaisesOwnAxis | Assets/Scripts/Player/PlayerCombat.cs:111-177 | Recoil flags are never lowered; a flag is raised exactly when it was off and a landed attack is on its axis (level stick for horizontal, up or down for vertical); without a press neither changes. |
| Combat.Refreshed | Assets/Scripts/Player/PlayerCombat.cs:165-168 | A landed hit gives back the air jump and the dash and advances the dash timer by one; velocity, gravity, facing, dash, wall jump and state machine are kept, and with no hit nothing changes. |
| Combat.PlayerCombat.constructor | Assets/Scripts/Player/PlayerCombat.cs:29-38 | Init saves the body's gravity and starts with no recoil and no restore. |
| Combat.PlayerCombat.SetAbilities | Assets/Scripts/Player/PlayerCombat.cs:40-43 | The abilities link is set. |
| Combat.PlayerCombat.Tick | Assets/Scripts/Player/PlayerCombat.cs:45-54 | Without the state flags nothing happens; otherwise the attack bookkeeping follows AttackStep, the slowed and invincible flags are kept, and the abilities are Refreshed exactly when the attack lands. |
| Combat.PlayerCombat.FixedTick | Assets/Scripts/Player/PlayerCombat.cs:56-60 | Without a state list nothing happens; otherwise the recoil follows RecoilStep. |
| Combat.PlayerCombat.HitStopTime | Assets/Scripts/Player/PlayerCombat.cs:63-77 | Time is set to the new scale and the restore starts at the given speed. |
| Combat.PlayerCombat.StartTimeAgain | Assets/Scripts/Player/PlayerCombat.cs:79-83 | The restore starts. |
| Combat.PlayerCombat.RestoreTimeScale | Assets/Scripts/Player/PlayerCombat.cs:85-98 | Time and the restore flag follow RestoreStep. |
| Combat.PlayerCombat.TryAttack | Assets/Scripts/Player/PlayerCombat.cs:111-177 | The attack timer is zero after a press and the frame time otherwise; the chosen attack raises the recoil flag of its axis when it lands, the slowed and invincible flags are kept, and the abilities are Refreshed exactly when it lands. |
| Combat.PlayerCombat.TryRecoil | Assets/Scripts/Player/PlayerCombat.cs:191-220 | The recoil state follows RecoilStep. |
| Combat.PlayerCombat.StopRecoilX | Assets/Scripts/Player/PlayerCombat.cs:222-226 | Horizontal recoil stops and its count resets. |
| Combat.PlayerCombat.StopRecoilY | Assets/Scripts/Player/PlayerCombat.cs:228-232 | Vertical recoil stops and its count resets. |
| Movement.Animated | Assets/Scripts/Player/PlayerMovement.cs:162-191 | The animation shows the dash or the slide, keeps the last state during a wall jump, and otherwise shows jumping, falling, idle or running by the vertical speed and the stick. |
| Movement.RunningLeftUnreachable | Assets/Scripts/Player/PlayerMovement.cs:162-191 | The running-left animation is never entered anew; it can only persist through a wall jump. |
| Movement.Consumed | Assets/Scripts/Player/PlayerMovement.cs:121-124 | Only the jump-release flag changes, cleared exactly when the swing ignores the jump cut. |
| Movement.Schedule | Assets/Scripts/Player/PlayerMovement.cs:89-141 | An ignored or dashing frame runs nothing; otherwise combat and the animation always run, and abilities and combat see the consumed input. |
| Movement.ScheduleOrdered | Assets/Scripts/Player/PlayerMovement.cs:111-140 | The components of a frame always run in the fixed order input, slow, swing, abilities, combat, animation, flip. |
| Movement.ScheduleGates | Assets/Scripts/Player/PlayerMovement.cs:127-140 | Abilities run exactly when not swinging; the flip runs exactly when neither wall-jumping nor swinging. |
| Movement.BlockMovement | Assets/Scripts/Player/PlayerMovement.cs:155 | The motor is blocked exactly when wall-jumping or when the swing blocks it. |
| Movement.SharedBody | Assets/Scripts/Player/PlayerMovement.cs:116-117 | The abilities see the velocity and gravity the swing left on the shared body; nothing else of theirs changes. |
| Movement.SwingingFreezesAbilities | Assets/Scripts/Player/PlayerMovement.cs:126-140 | While swinging the abilities' tick and the flip are skipped: only a landed hit refreshes the air jump and dash, and without one the abilities state is unchanged. |
| Movement.FreeFrameRunsAbilities | Assets/Scripts/Player/PlayerMovement.cs:126-140 | When not swinging, velocity, gravity, the state machine, the dash and the wall jump are exactly what the abilities' TickStep leaves, and the facing is flipped unless wall jumping. |
| Movement.PlayerMovement.constructor | Assets/Scripts/Player/PlayerMovement.cs:48-73 | Start wires motor, abilities, combat, swing and state machine to the same body and to each other. |
| Movement.PlayerMovement.Update | Assets/Scripts/Player/PlayerMovement.cs:89-141 | Ignored input makes the body static and changes nothing else; otherwise a static body turns dynamic. A dashing frame then stops with the swing, abilities and combat untouched. Any other frame runs exactly Schedule: the swing follows its TickStep, the abilities follow AfterSwingStep on the body the swing left, combat follows CombatStep on the consumed input, the speed follows the slow flag and the animation follows Animated. |
| Movement.PlayerMovement.WakeBody | Assets/Scripts/Player/PlayerMovement.cs:100-104 | A static body becomes dynamic and any other keeps its type; the swing, abilities and combat states are untouched. |
| Movement.PlayerMovement.RunComponents | Assets/Scripts/Player/PlayerMovement.cs:109-140 | The components in order: the swing state is its TickStep, the consumed input drops the jump release exactly when the swing ignores the jump cut, the abilities follow AfterSwingStep, combat follows CombatStep, the speed follows the slow flag, the log is Schedule and the body type is untouched. |
| Movement.PlayerMovement.SlowAndSwing | Assets/Scripts/Player/PlayerMovement.cs:113-124 | The speed follows the slow flag, the swing state is its TickStep, the abilities see the shared body, the consumed input drops the jump release exactly when the swing ignores the jump cut, and combat is untouched. |
| Movement.PlayerMovement.TickSlowEffect | Assets/Scripts/Player/PlayerMovement.cs:114 | The motor's speed follows the slow flag; the swing, abilities and combat states are untouched. |
| Movement.PlayerMovement.TickSwing | Assets/Scripts/Player/PlayerMovement.cs:117 | The swing state is its TickStep from the grip in reach and the hinge's connection; the abilities see only the shared body change; the speed, the slow flag and combat are untouched. |
| Movement.PlayerMovement.RunAfterSwing | Assets/Scripts/Player/PlayerMovement.cs:126-140 | Abilities unless swinging, then combat, animation and flip: the abilities state is AfterSwingStep for the swing's flags, combat's is CombatStep, the swing's own fields, the speed and the slow flag are untouched, and the log holds the abilities only when not swinging and the flip only when neither wall jumping nor swinging. |
| Movement.PlayerMovement.AbilitiesAndCombat | Assets/Scripts/Player/PlayerMovement.cs:126-131 | The abilities tick unless swinging, then combat: the abilities state is Refreshed after Ticked, and combat's is CombatStep. |
| Movement.PlayerMovement.TickAbilities | Assets/Scripts/Player/PlayerMovement.cs:127-128 | The abilities state is their TickStep with the swing's jump-cut flag and the knockback lock; the swing, the slow flag and combat are untouched. |
| Movement.PlayerMovement.TickCombat | Assets/Scripts/Player/PlayerMovement.cs:131 | Combat's state is CombatStep, and the abilities are refreshed exactly when an attack lands; the swing and the slow flag are untouched. |
| Movement.PlayerMovement.FlipUnlessBusy | Assets/Scripts/Player/PlayerMovement.cs:136-140 | The avatar flips only when neither wall jumping nor swinging; the abilities state follows Flipped. |
| Movement.PlayerMovement.FixedUpdate | Assets/Scripts/Player/PlayerMovement.cs:146-159 | During a dash the motor, the body and combat are untouched. Otherwise the motor state is HorizontalStep with BlockMovement; with the state flags combat's recoil state is RecoilStep on the velocity the motor left, and without them the velocity is the motor's and gravity is kept; a swing that blocks the motor freezes the knockback lock. |
| Movement.PlayerMovement.UpdateAnimationState | Assets/Scripts/Player/PlayerMovement.cs:162-191 | The animation follows Animated. |
| Movement.PlayerMovement.HitStopTime | Assets/Scripts/Player/PlayerMovement.cs:194-197 | The hit-stop is passed to combat. |
| Progress.ProgressData.constructor | Assets/Scripts/Core/PlayerProgress.cs:6-13 | New data has no rooms and three empty lists. |
| Progress.NonBlankIds | Assets/Scripts/Core/PlayerProgress.cs:35-51 | Loading collects exactly the non-blank ids of a list. |
| Progress.Added | Assets/Scripts/Core/PlayerProgress.cs:54-82 | A blank id changes nothing; otherwise the set takes the id. A listed or already known id leaves the list alone; a new, unlisted id is appended; the call throws exactly when the id is new and the list is missing. |
| Progress.AddedKeepsAll | Assets/Scripts/Core/PlayerProgress.cs:54-82 | Recording never forgets an id, in the set or in the list. |
| Progress.AddedIdempotent | Assets/Scripts/Core/PlayerProgress.cs:54-82 | Recording the same id twice is the same as once. |
| Progress.AddedMirrored | Assets/Scripts/Core/PlayerProgress.cs:54-82 | If the set holds exactly the list's non-blank ids, it still does after recording. |
| Progress.LoadedMirrored | Assets/Scripts/Core/PlayerProgress.cs:27-52 | After loading, each set holds exactly its list's non-blank ids. |
| Progress.PlayerProgress.constructor | Assets/Scripts/Core/PlayerProgress.cs:17-21 | A new component holds empty data and empty sets. |
| Progress.PlayerProgress.HasAbility | Assets/Scripts/Core/PlayerProgress.cs:23 | A blank id is never held; a non-blank one is held exactly when unlocked. |
| Progress.PlayerProgress.HasKeyfile | Assets/Scripts/Core/PlayerProgress.cs:24 | A blank id is never held; a non-blank one is held exactly when collected. |
| Progress.PlayerProgress.HasDiscoveredRoom | Assets/Scripts/Core/PlayerProgress.cs:25 | A blank id is never held; a non-blank one is held exactly when discovered. |
| Progress.PlayerProgress.LoadFrom | Assets/Scripts/Core/PlayerProgress.cs:27-52 | Loading keeps the given data, or fresh empty data for none, and rebuilds each set from its list. |
| Progress.PlayerProgress.UnlockAbility | Assets/Scripts/Core/PlayerProgress.cs:54-62 | The abilities follow Added. |
| Progress.PlayerProgress.DiscoverRoom | Assets/Scripts/Core/PlayerProgress.cs:64-72 | The rooms follow Added. |
| Progress.PlayerProgress.CollectKeyfile | Assets/Scripts/Core/PlayerProgress.cs:74-82 | The keyfiles follow Added. |
| Progress.CollectIds | Assets/Scripts/Core/PlayerProgress.cs:35-51 | The loading loop collects exactly NonBlankIds. |
| Progress.UnlockedIsHeld | Assets/Scripts/Core/PlayerProgress.cs:54-62 | A non-blank id is held after recording it. |
| Gates.CanTraverse | Assets/Scripts/World/GateRules.cs:5-16 | With no progress an exit is closed; otherwise it is open exactly when each non-blank requirement is held. |
| Gates.CanTraverseMonotone | Assets/Scripts/World/GateRules.cs:5-16 | Gaining abilities or keyfiles never closes an exit. |
| Gates.UngatedExitOpen | Assets/Scripts/World/GateRules.cs:5-16 | An exit with no requirement is always open. |
| Gates.UnlockingOpens | Assets/Scripts/World/GateRules.cs:5-16 | Recording an exit's required ability and keyfile meets its requirements. |
| World.WorldGraph.constructor | Assets/Scripts/World/WorldGraph.cs:8 | The graph holds the given rooms. |
| World.WorldGraph.TryGetRoom | Assets/Scripts/World/WorldGraph.cs:10-23 | A room is found exactly when one has the id, and it is the first such; otherwise the default room comes back. |
| World.LookupFindsListedRoom | Assets/Scripts/World/WorldGraph.cs:10-23 | Looking up a listed room's id finds a room with that id. |
| Finish.Destination | Assets/Scripts/Player/FinishLevel.cs:85-94 | The destination is the id of the first room showing the scene, and none when no room does. |
| Finish.GoverningExit | Assets/Scripts/Player/FinishLevel.cs:101-112 | The governing exit is an exit of the current room leading to the destination, and none exactly when the room is unknown, has no exits or none leads there. |
| Finish.TryCanTraverseToScene | Assets/Scripts/Player/FinishLevel.cs:75-116 | Travel needs the game root, progress, graph and a known destination; it is allowed exactly when the current room is unknown, no exit governs, or the governing exit is open. |
| Finish.DoorOpensWithRequirements | Assets/Scripts/Player/FinishLevel.cs:75-116 | With the root present, a known destination and the governing exit's requirements held, travel is allowed. |
| Finish.FinishLevel.constructor | Assets/Scripts/Player/FinishLevel.cs:7-21 | A new finish line has not completed the level. |
| Finish.FinishLevel.OnTriggerEnter | Assets/Scripts/Player/FinishLevel.cs:24-38 | The level completes exactly when its player touches it the first time; then input is ignored. |
| Finish.FinishLevel.CompleteLevel | Assets/Scripts/Player/FinishLevel.cs:41-73 | No next scene clears the completion and re-enables input. An allowed gated trip sets the current room, records the discovery as Added does, loads the scene unless that threw, and leaves completion, the player, the ability and keyfile sets and lists and the last save room alone. A refused one clears the completion and re-enables input. Ungated travel loads the scene. Progress is untouched except on an allowed trip. |
| AbilityGates.Unlocked | Assets/Scripts/World/AbilityGate.cs:34-45 | With no progress a gate is locked; otherwise it opens exactly when each non-blank requirement is held. |
| AbilityGates.SameRuleAsExits | Assets/Scripts/World/AbilityGate.cs:34-45 | A gate opens exactly when an exit with the same requirements can be traversed. |
| AbilityGates.AbilityGate.constructor | Assets/Scripts/World/AbilityGate.cs:23-27 | Awake blocks with the assigned collider, or the gate's own. |
| AbilityGates.AbilityGate.Refresh | Assets/Scripts/World/AbilityGate.cs:34-45 | The collider blocks exactly when locked and the visuals show the lock state. |
| Toolbar.ToolbarItem.IsEmpty | Assets/Scripts/UI/Toolbar/ToolbarItem.cs:19 | An empty item has no icon; an item without a name is empty exactly when it has no icon. |
| Toolbar.EmptyExactly | Assets/Scripts/UI/Toolbar/ToolbarItem.cs:13-19 | The default item is empty; a named or iconed item is not. |
| Toolbar.ViewOf | Assets/Scripts/UI/Toolbar/ToolbarUI.cs:238-243 | A slot shows nothing exactly for an empty item, and otherwise the item. |
| Toolbar.Padded | Assets/Scripts/UI/Toolbar/ToolbarUI.cs:235-236 | Padding appends empty items up to the slot count and keeps every existing item. |
| Toolbar.Resized | Assets/Scripts/UI/Toolbar/ToolbarUI.cs:91-168 | The slots are exactly the slot count long, keeping the views by position and adding fresh ones. |
| Toolbar.Fitted | Assets/Scripts/UI/Toolbar/ToolbarUI.cs:60-68 | New items fill the slots in order, the rest stay empty, extras are dropped. |
| Toolbar.ToolbarUI.constructor | Assets/Scripts/UI/Toolbar/ToolbarUI.cs:36-39 | Awake builds at least one slot and a clamped selection with no items. |
| Toolbar.ToolbarUI.EnsureBuilt | Assets/Scripts/UI/Toolbar/ToolbarUI.cs:91-140 | The slot count is at least one, the selection is clamped into it and the slots resized to it. |
| Toolbar.ToolbarUI.RebuildSlots | Assets/Scripts/UI/Toolbar/ToolbarUI.cs:142-168 | The slot views are resized to the slot count. |
| Toolbar.ToolbarUI.Start | Assets/Scripts/UI/Toolbar/ToolbarUI.cs:41-54 | An empty toolbar gets the default equipped item first and empty items after; the items are shown and the selection stays where it was, clamped into the slots. |
| Toolbar.ToolbarUI.SetItems | Assets/Scripts/UI/Toolbar/ToolbarUI.cs:56-71 | The items become Fitted of the input and are shown; the selection stays where it was, clamped into the slots. |
| Toolbar.ToolbarUI.SetSelectedIndex | Assets/Scripts/UI/Toolbar/ToolbarUI.cs:73-78 | The selection is clamped, exactly one slot is marked, and the shown items are kept. |
| Toolbar.ToolbarUI.SetSlot | Assets/Scripts/UI/Toolbar/ToolbarUI.cs:80-89 | An out-of-range index changes no item and only rebuilds the slot views (Resized); otherwise the padded items take the new item there and are shown. Either way the selection stays where it was, clamped into the slots. |
| Toolbar.ToolbarUI.PadItems | Assets/Scripts/UI/Toolbar/ToolbarUI.cs:235-236 | The loop pads the items exactly as Padded. |
| Toolbar.ToolbarUI.ApplyToView | Assets/Scripts/UI/Toolbar/ToolbarUI.cs:231-246 | The items are padded, every slot shows ViewOf its item, and the selection stays where it was, clamped into the slots. |
| Toolbar.ToolbarUI.ApplySelection | Assets/Scripts/UI/Toolbar/ToolbarUI.cs:248-253 | Only the selection marks change, marking exactly the selected slot. |
| Health.Healed | Assets/Scripts/HealthManager.cs:80-84 | Healing adds the amount and clamps into [0, 100]. |
| Health.BarFill | Assets/Scripts/HealthManager.cs:86-89 | The bar fill is the health fraction of 100, kept in [0, 1]. |
| Health.DebugKeys | Assets/Scripts/HealthManager.cs:49-58 | Without debug keys health is kept; Return deals 20 damage; Backspace heals into [0, 100]. |
| Health.FrameHealth | Assets/Scripts/HealthManager.cs:36-72 | A fall restores full health; otherwise health follows the debug keys. |
| Health.DamageReachesDeath | Assets/Scripts/HealthManager.cs:49-53 | Enough damage frames take any health to zero or below, which makes the next frame schedule a respawn. |
| Health.DamagedBy | Assets/Scripts/HealthManager.cs:49-53 | Each debug frame with only the damage key down lowers the health. |
| Health.FrameAfterDeath | Assets/Scripts/HealthManager.cs:39-70 | A dead avatar stays dead in the frame unless it falls or heals. |
| Health.HealthManager.constructor | Assets/Scripts/HealthManager.cs:22-33 | Start sets full health and remembers the position as the respawn point. |
| Health.HealthManager.TakeDamage | Assets/Scripts/HealthManager.cs:75-78 | Damage subtracts the amount, without a floor. |
| Health.HealthManager.Heal | Assets/Scripts/HealthManager.cs:80-84 | Health follows Healed. |
| Health.HealthManager.UpdateHealthbar | Assets/Scripts/HealthManager.cs:86-89 | The bar shows BarFill. |
| Health.HealthManager.Die | Assets/Scripts/HealthManager.cs:91-99 | Dying blocks the player's input. |
| Health.HealthManager.Respawn | Assets/Scripts/HealthManager.cs:101-106 | Respawning moves to the respawn point with full health. |
| Health.HealthManager.Update | Assets/Scripts/HealthManager.cs:36-73 | A respawn is scheduled exactly when health starts at zero or below, and input is then blocked; health follows FrameHealth; a fall resets position and velocity; the bar shows the new health. |
| Enemies.FrameStep | Assets/Scripts/Enemies/Enemy.cs:50-73 | An enemy is dead once its health reaches zero; a live recoiling enemy's timer runs until the recoil length and then resets. |
| Enemies.HitStep | Assets/Scripts/Enemies/Enemy.cs:81-93 | A positive hit subtracts the damage; anything else changes nothing. |
| Enemies.DeadDiesNoMore | Assets/Scripts/Enemies/Enemy.cs:53-58 | A dead enemy never dies again. |
| Enemies.DiesAtMostOnce | Assets/Scripts/Enemies/Enemy.cs:50-93 | Over any run of frames and hits, an enemy dies at most once. |
| Enemies.Away | Assets/Scripts/Enemies/Enemy.cs:151-157 | The push direction is never near zero; with the bodies on top of each other it is sideways by the horizontal order. |
| Enemies.KnockVelocity | Assets/Scripts/Enemies/Enemy.cs:158-160 | The vertical knockback is the configured one. |
| Enemies.KnockbackPushesAway | Assets/Scripts/Enemies/Enemy.cs:151-160 | The horizontal knockback points away from the enemy and is no stronger than configured. |
| Enemies.Enemy.constructor | Assets/Scripts/Enemies/Enemy.cs:16-47 | A new enemy is alive, not destroyed and with a zero recoil timer. |
| Enemies.Enemy.Update | Assets/Scripts/Enemies/Enemy.cs:50-73 | A frame follows FrameStep and destroys the enemy exactly when it dies. |
| Enemies.Enemy.Die | Assets/Scripts/Enemies/Enemy.cs:75-78 | The enemy is destroyed. |
| Enemies.Enemy.EnemyHit | Assets/Scripts/Enemies/Enemy.cs:81-93 | Health follows HitStep; a positive hit on a non-recoiling enemy pushes it against the hit direction. |
| Enemies.Enemy.ApplyCollisionKnockback | Assets/Scripts/Enemies/Enemy.cs:143-172 | When enabled and the player has a body, the body takes KnockVelocity away from the enemy and a motor's lock becomes the larger of its old value and the configured seconds; only the body's velocity and the motor's lock may change, and when disabled or bodiless nothing changes. |
| Enemies.Enemy.EnemyAttack | Assets/Scripts/Enemies/Enemy.cs:126-141 | The enemy attacks exactly a live, non-invincible player, which loses the enemy's damage and is knocked back (velocity and motor lock as in ApplyCollisionKnockback); otherwise the player's body and motor are untouched. |
| Enemies.Enemy.OnPlayerStay | Assets/Scripts/Enemies/Enemy.cs:108-123 | Staying in contact knocks the player back (velocity and motor lock) when enabled; only the body's velocity and the motor's lock may change, and for anything else nothing changes. |
| Enemies.Enemy.OnCollisionEnter | Assets/Scripts/Enemies/Enemy.cs:96-105 | Touching a player without state flags throws. Touching a non-invincible player starts a hit-stop at 0.25 with a restore speed of 5, alive or not, and attacks it when alive, with damage, knockback velocity and motor lock forwarded from EnemyAttack. Anything else changes nothing. |
| Boss.GravityFor | Assets/Scripts/Enemies/BossScript.cs:111-122 | The bomb's gravity is 100 exactly when falling faster than 5, and 5 otherwise. |
| Boss.TurnFacesPlayer | Assets/Scripts/Enemies/BossScript.cs:124-137 | A turn faces the player; within the turn distance the boss never turns. |
| Boss.LaunchStep | Assets/Scripts/Enemies/BossScript.cs:43-54 | The boss launches exactly when its timer exceeds 2, jumping up and toward the player and restarting the timer; otherwise the timer grows. |
| Boss.NoEarlyLaunch | Assets/Scripts/Enemies/BossScript.cs:43-54 | Until its timer has passed 2 the boss never launches. |
| Boss.HitForcesLaunch | Assets/Scripts/Enemies/BossScript.cs:57-68 | After a hit, the next physics step launches. |
| Boss.BossScript.constructor | Assets/Scripts/Enemies/BossScript.cs:9-36 | The boss starts facing left with its timer at 1. |
| Boss.BossScript.Update | Assets/Scripts/Enemies/BossScript.cs:37-41 | A frame sets the bomb's gravity and faces the player once beyond the turn distance. |
| Boss.BossScript.GravityModifier | Assets/Scripts/Enemies/BossScript.cs:111-122 | The gravity follows GravityFor. |
| Boss.BossScript.ChangeDirection | Assets/Scripts/Enemies/BossScript.cs:124-137 | Facing and scale flip exactly when Turns holds. |
| Boss.BossScript.FixedUpdate | Assets/Scripts/Enemies/BossScript.cs:43-54 | A physics step runs the enemy frame and the launch of LaunchStep. |
| Boss.BossScript.LaunchOffGround | Assets/Scripts/Enemies/BossScript.cs:71-93 | Past the jump interval the bomb jumps toward the player and the timer restarts; otherwise nothing changes. |
| Boss.BossScript.EnemyHit | Assets/Scripts/Enemies/BossScript.cs:57-68 | A hit subtracts the damage even when not positive, recoils unless recoiling, and sets the timer past the interval. |

## Left out

- The physics engine: integration, joint solving, contacts and the velocity of a
  point on a body (`GetPointVelocity`, passed in as `gripPoint`) are inputs, not
  computed.
- Probes (`OverlapCircle` for ground and walls, the attack overlap boxes and the
  trigger contacts) are boolean inputs; the enemies an attack reaches are one
  `struck` flag, and the calls from an attack into each enemy's `EnemyHit` are
  not modelled.
- Square roots: `Vector2.Distance` is compared through squares, and the length
  used to normalise the knockback direction is supplied by the caller together
  with the fact that it squares to the squared length.
- `Mathf.Exp` in the motor's easing is an input (`easing`), as is `Time.deltaTime`
  (`dt`).
- Coroutines and delayed calls: the dash coroutine is split into its two waits
  (`DashTimeElapsed`, `DashCooldownElapsed`) that the caller fires; the `Invoke`
  of `StopWallJumping`, `StartTimeAgain` and the respawn after death are returned
  or exposed as separate methods rather than scheduled.
- Scene loading (`SceneManager`) is returned as a value; saving
  (`SaveSystem.Save`, called from `CompleteLevel` on an allowed trip) is not
  modelled, and neither is the boss's `OnDestroy` scene load.
- Rendering: sprites, colours, line renderers, the toolbar slot prefabs and
  their labels (`showLabels`), particles (`toggleGroundEmissions`), the boss's
  `hitFlash`, audio clips and the animator.
- `Toolbar.ToolbarUI.constructor`: the model starts from an empty slot
  container; slot views already placed under it in the scene, which the first
  rebuild would reuse, are not modelled.
- `Toolbar.ToolbarUI.RebuildSlots`: destroying old slot objects is deferred in
  the engine; the model keeps the first views by position.
- `PlayerStatesList` is not part of this model; its four flags are a small
  class and its `alive` flag is a parameter.
- Guards against missing components that the scripts require (`RequireComponent`
  bodies, the grip's body, the movement config) are not modelled: those
  references are never null here. `PlayerMovement`'s null-conditional calls
  (`swing?.`, `abilities?.`, `combat?.`, `pState?.`) assume every component
  present after `Start`, except `pState`, whose absence is modelled (no slow
  effect, no combat step); its `input`/`anim` reads are parameters or rendering.
- `Plugs.JointsMeet`: the first segment is placed one length below the anchor
  but hinged to the anchor's centre, so its top end starts half a length away;
  the physics engine closing that gap on the first step is not modelled.
- `PlayerMovement.Instance`, the singleton that `Enemy` reads, is an explicit
  `pm` parameter of `Enemies.Enemy.OnCollisionEnter`; the player's own body,
  motor and health component, looked up on the touching object, are parameters
  too.
- `BossScript` inherits `Enemy`; the model composes the boss with its enemy part
  instead of overriding, so virtual dispatch is not modelled.
- `Enemies.Enemy.EnemyHit`: the source never sets `isRecoiling` there, and the
  model keeps that.
- `Toolbar.ToolbarUI.Start`: requires at least one slot when the list is empty,
  which `Awake` guarantees; the index `items[0]` would otherwise throw.
- `Health.HealthManager.Respawn`: does not restore input, as in the source.
- `Health.BarFill`: includes the clamping of `Image.fillAmount` to [0, 1].
- `Motor.MoveSpeedFor`: states only the unslowed speed as an ensures; the
  bound for the slowed speed is `Motor.SlowNeverFaster`, under the inspector
  ranges.
- `Swing.RecoverDuration`: states only the 0.0001 floor as an ensures; the
  bounds and monotonicity are `Swing.RecoverDurationBoundsAndMonotone`, under
  ordered inspector values.
- Input reading (`PlayerInputReader`) is not modelled: each frame's intent is a
  parameter.
