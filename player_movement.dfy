/** `PlayerMovement` (Assets/Scripts/Player/PlayerMovement.cs): the avatar's
    per-frame conductor. It owns no movement rules of its own; it decides, each
    frame, which of the extracted components run, in which order and with which
    input, and it keeps the animation state.

    `Update` returns the list of component calls it made, in order; `Schedule`
    is the specification of that list. */
module Movement {
  import opened UnityMath
  import opened Engine
  import opened Input
  import opened PlayerConfig
  import SM = StateMachine
  import opened Motor
  import opened Abilities
  import opened Combat
  import Swing

  /** The animation states, numbered 0 to 6 as the animator expects. */
  datatype AnimState = Idle | RunningRight | RunningLeft | Jumping | Falling | Dashing | WallSliding

  /** `UpdateAnimationState` on values: nothing changes while wall jumping;
      otherwise level input is idle and any other input runs right, a clear
      vertical speed overrides that with jumping or falling, and wall sliding and
      then dashing override everything. */
  function Animated(prev: AnimState, horizontal: real, vy: real, m: SM.MovementState): (a: AnimState)
    ensures m == SM.WallJumping ==> a == prev
    ensures m == SM.Dashing ==> a == Dashing
    ensures m == SM.WallSliding ==> a == WallSliding
    ensures m == SM.Grounded || m == SM.Airborne ==>
              a == if vy > 0.1 then Jumping
                   else if vy < -0.1 then Falling
                   else if horizontal == 0.0 then Idle
                   else RunningRight
  {
    if m == SM.WallJumping then prev
    else
      var run := if horizontal == 0.0 then Idle else RunningRight;
      var air := if vy > 0.1 then Jumping else if vy < -0.1 then Falling else run;
      var slide := if m == SM.WallSliding then WallSliding else air;
      if m == SM.Dashing then Dashing else slide
  }

  /** The running-left animation is never chosen: the test for "not level"
      before it already catches every negative input. */
  lemma RunningLeftUnreachable(prev: AnimState, horizontal: real, vy: real, m: SM.MovementState)
    ensures Animated(prev, horizontal, vy, m) == RunningLeft ==> prev == RunningLeft && m == SM.WallJumping
  {
  }

  /** A component call made by `Update`, with the input it was given. */
  datatype Call =
    | SlowEffect
    | SwingTick(intent: Intent)
    | AbilitiesTick(intent: Intent)
    | CombatTick(intent: Intent)
    | Animate(horizontal: real)
    | FlipFacing(horizontal: real)

  /** The position of each kind of call in the frame order. */
  function Rank(c: Call): nat
  {
    match c
    case SlowEffect => 0
    case SwingTick(_) => 1
    case AbilitiesTick(_) => 2
    case CombatTick(_) => 3
    case Animate(_) => 4
    case FlipFacing(_) => 5
  }

  /** The intent the components after the swing see: a jump release is consumed
      when the swing says to skip the jump cut. */
  function Consumed(intent: Intent, ignoreCut: bool): (i: Intent)
    ensures i.jumpUp == (intent.jumpUp && !ignoreCut)
    ensures i.(jumpUp := intent.jumpUp) == intent
  {
    if ignoreCut then intent.(jumpUp := false) else intent
  }

  /** The calls of one `Update`, from whether input is ignored and whether a dash
      is running at the start, and from the swing's and the abilities' flags as
      read after the swing ran. */
  function Schedule(ignore: bool, dashing: bool, intent: Intent,
                    ignoreCut: bool, swinging: bool, wallJumping: bool): (calls: seq<Call>)
    ensures ignore || dashing ==> calls == []
    ensures !ignore && !dashing ==>
              |calls| >= 4 && calls[0] == SlowEffect && calls[1] == SwingTick(intent)
    ensures forall k :: 0 <= k < |calls| && (calls[k].AbilitiesTick? || calls[k].CombatTick?) ==>
              calls[k].intent == Consumed(intent, ignoreCut)
    ensures !ignore && !dashing ==>
              CombatTick(Consumed(intent, ignoreCut)) in calls && Animate(intent.horizontal) in calls
  {
    if ignore || dashing then []
    else
      var i := Consumed(intent, ignoreCut);
      [SlowEffect, SwingTick(intent)]
      + (if swinging then [] else [AbilitiesTick(i)])
      + [CombatTick(i), Animate(intent.horizontal)]
      + (if !wallJumping && !swinging then [FlipFacing(intent.horizontal)] else [])
  }

  /** A running frame's calls: the slow effect and the swing, then what follows
      the swing. */
  lemma ScheduleSplits(intent: Intent, ignoreCut: bool, swinging: bool, wallJumping: bool, rest: seq<Call>)
    requires var i := Consumed(intent, ignoreCut);
             rest == (if swinging then [] else [AbilitiesTick(i)]) + [CombatTick(i), Animate(intent.horizontal)]
                     + (if !wallJumping && !swinging then [FlipFacing(intent.horizontal)] else [])
    ensures Schedule(false, false, intent, ignoreCut, swinging, wallJumping) == [SlowEffect, SwingTick(intent)] + rest
  {
  }

  /** Frame order: slow effect, swing, abilities, combat, animation, flip, each at
      most once. */
  lemma {:induction false} ScheduleOrdered(ignore: bool, dashing: bool, intent: Intent,
                                            ignoreCut: bool, swinging: bool, wallJumping: bool)
    ensures var calls := Schedule(ignore, dashing, intent, ignoreCut, swinging, wallJumping);
            forall j, k :: 0 <= j < k < |calls| ==> Rank(calls[j]) < Rank(calls[k])
  {
    var calls := Schedule(ignore, dashing, intent, ignoreCut, swinging, wallJumping);
    if !ignore && !dashing {
      var i := Consumed(intent, ignoreCut);
      var ranks := seq(|calls|, k requires 0 <= k < |calls| => Rank(calls[k]));
      if swinging {
        assert calls == [SlowEffect, SwingTick(intent), CombatTick(i), Animate(intent.horizontal)];
      } else if wallJumping {
        assert calls == [SlowEffect, SwingTick(intent), AbilitiesTick(i), CombatTick(i), Animate(intent.horizontal)];
      } else {
        assert calls == [SlowEffect, SwingTick(intent), AbilitiesTick(i), CombatTick(i),
                         Animate(intent.horizontal), FlipFacing(intent.horizontal)];
      }
    }
  }

  /** Abilities run exactly when the frame runs and the avatar is not swinging;
      the flip exactly when, in addition, no wall jump is running. */
  lemma {:induction false} ScheduleGates(ignore: bool, dashing: bool, intent: Intent,
                                          ignoreCut: bool, swinging: bool, wallJumping: bool)
    ensures var calls := Schedule(ignore, dashing, intent, ignoreCut, swinging, wallJumping);
            && ((exists k :: 0 <= k < |calls| && calls[k].AbilitiesTick?) <==> !ignore && !dashing && !swinging)
            && ((exists k :: 0 <= k < |calls| && calls[k].FlipFacing?)
                  <==> !ignore && !dashing && !swinging && !wallJumping)
  {
    var calls := Schedule(ignore, dashing, intent, ignoreCut, swinging, wallJumping);
    if !ignore && !dashing {
      var i := Consumed(intent, ignoreCut);
      if swinging {
        assert calls == [SlowEffect, SwingTick(intent), CombatTick(i), Animate(intent.horizontal)];
      } else if wallJumping {
        assert calls == [SlowEffect, SwingTick(intent), AbilitiesTick(i), CombatTick(i), Animate(intent.horizontal)];
        assert calls[2].AbilitiesTick?;
      } else {
        assert calls == [SlowEffect, SwingTick(intent), AbilitiesTick(i), CombatTick(i),
                         Animate(intent.horizontal), FlipFacing(intent.horizontal)];
        assert calls[2].AbilitiesTick? && calls[5].FlipFacing?;
      }
    }
  }

  /** The motor is held back by a wall jump or by the swing. */
  function BlockMovement(wallJumping: bool, swingBlocks: bool): (b: bool)
    ensures swingBlocks ==> b
    ensures wallJumping ==> b
    ensures !wallJumping && !swingBlocks ==> !b
  {
    wallJumping || swingBlocks
  }

  /** The abilities' state as the rest of the frame finds it after the swing's
      tick: the body they share now carries the swing's velocity and gravity. */
  function SharedBody(a: AbilityState, sw: Swing.SwingState): (r: AbilityState)
    ensures r.velocity == sw.velocity && r.gravityScale == sw.gravityScale
    ensures r.(velocity := a.velocity, gravityScale := a.gravityScale) == a
  {
    a.(velocity := sw.velocity, gravityScale := sw.gravityScale)
  }

  /** Whether this frame's attack lands: combat runs only with the shared
      flags, and the avatar always has a motor to judge the ground. */
  predicate AttackLands(c: MovementConfig, hasFlags: bool, i: Intent, grounded: bool, struck: bool)
  {
    hasFlags && Lands(c, AttackFor(i.attackDown, i.vertical, true, grounded), struck)
  }

  /** The part of `Update` after the swing, on the abilities' state: their tick
      unless swinging, the refresh of a landed hit, and the flip unless wall
      jumping or swinging. */
  function AfterSwingStep(c: MovementConfig, s: AbilityState, consumed: Intent, p: Contact,
                          ignoreCut: bool, locked: bool, dt: real, swinging: bool, landed: bool): AbilityState
  {
    var ticked := if swinging then s else Abilities.TickStep(c, s, consumed, p, ignoreCut, locked, dt);
    var hit := Refreshed(ticked, landed);
    if !hit.isWallJumping && !swinging then hit.(scaleX := FlippedScale(hit.scaleX, consumed.horizontal, false, locked))
    else hit
  }

  /** The abilities' tick, skipped while swinging. */
  function Ticked(c: MovementConfig, s: AbilityState, consumed: Intent, p: Contact,
                  ignoreCut: bool, locked: bool, dt: real, swinging: bool): AbilityState
  {
    if swinging then s else Abilities.TickStep(c, s, consumed, p, ignoreCut, locked, dt)
  }

  /** The flip, skipped while wall jumping or swinging. */
  function Flipped(s: AbilityState, horizontal: real, locked: bool, swinging: bool): AbilityState
  {
    if !s.isWallJumping && !swinging then s.(scaleX := FlippedScale(s.scaleX, horizontal, false, locked)) else s
  }

  /** `AfterSwingStep` is its three pieces in order. */
  lemma AfterSwingSplits(c: MovementConfig, s: AbilityState, consumed: Intent, p: Contact,
                         ignoreCut: bool, locked: bool, dt: real, swinging: bool, landed: bool)
    ensures AfterSwingStep(c, s, consumed, p, ignoreCut, locked, dt, swinging, landed)
         == Flipped(Refreshed(Ticked(c, s, consumed, p, ignoreCut, locked, dt, swinging), landed),
                    consumed.horizontal, locked, swinging)
  {
  }

  /** While swinging the abilities do not run and the avatar does not turn: only
      a landed hit touches their state. */
  lemma SwingingFreezesAbilities(c: MovementConfig, s: AbilityState, consumed: Intent, p: Contact,
                                 ignoreCut: bool, locked: bool, dt: real, landed: bool)
    ensures AfterSwingStep(c, s, consumed, p, ignoreCut, locked, dt, true, landed) == Refreshed(s, landed)
    ensures AfterSwingStep(c, s, consumed, p, ignoreCut, locked, dt, true, false) == s
  {
  }

  /** Off the swing the abilities run once: the hit's refresh and the flip move
      neither the body nor the reported state the tick left, and the facing
      changes only when no wall jump runs. */
  lemma {:induction false} FreeFrameRunsAbilities(c: MovementConfig, s: AbilityState, consumed: Intent, p: Contact,
                                                  ignoreCut: bool, locked: bool, dt: real, landed: bool)
    ensures var t := Abilities.TickStep(c, s, consumed, p, ignoreCut, locked, dt);
            var r := AfterSwingStep(c, s, consumed, p, ignoreCut, locked, dt, false, landed);
            && r.velocity == t.velocity && r.gravityScale == t.gravityScale && r.machine == t.machine
            && r.isDashing == t.isDashing && r.isWallJumping == t.isWallJumping
            && (t.isWallJumping ==> r.scaleX == t.scaleX)
            && (!t.isWallJumping ==> r.scaleX == FlippedScale(t.scaleX, consumed.horizontal, false, locked))
  {
    var t := Abilities.TickStep(c, s, consumed, p, ignoreCut, locked, dt);
    var h := Refreshed(t, landed);
    assert h.isWallJumping == t.isWallJumping && h.scaleX == t.scaleX;
  }

  /** Combat's tick on its bookkeeping: nothing happens without the shared flags. */
  function CombatStep(c: MovementConfig, hasFlags: bool, s: AttackState, i: Intent, dt: real, grounded: bool,
                      struck: bool, restoreSpeed: real): AttackState
  {
    if hasFlags then AttackStep(c, s, i, dt, true, grounded, struck, restoreSpeed) else s
  }

  class PlayerMovement {
    const config: MovementConfig
    const rb: Rigidbody
    /** The shared state flags; absent when the avatar has no such component. */
    const pState: PlayerStates?
    const motor: PlayerMotor
    const abilities: PlayerAbilities
    const combat: PlayerCombat
    const stateMachine: SM.PlayerStateMachine
    const swing: Swing.PlayerSwingController
    var ignoreUserInput: bool
    var state: AnimState

    /** `Start`: the components found on the avatar, initialised and wired to
        the shared body, configuration and state flags; a swing controller is
        added because none is found. */
    constructor (config: MovementConfig, swingConfig: Swing.SwingConfig, rb: Rigidbody,
                 transform: Transform, pState: PlayerStates?, clock: GameClock, dashIcon: FillImage?)
      ensures Valid()
      ensures this.config == config && this.rb == rb && this.pState == pState && !ignoreUserInput && state == Idle
      ensures motor.transform == transform && swing.config == swingConfig
      ensures combat.clock == clock && abilities.dashIcon == dashIcon
      ensures stateMachine.current == SM.Grounded
    {
      this.config := config;
      this.rb := rb;
      this.pState := pState;
      var s := new Swing.PlayerSwingController(swingConfig, rb);
      var m := new PlayerMotor(config, rb, transform);
      var sm := new SM.PlayerStateMachine();
      var a := new PlayerAbilities(config, m, sm, s, dashIcon);
      var c := new PlayerCombat(config, pState, m, rb, transform, clock);
      c.SetAbilities(a);
      swing := s;
      motor := m;
      stateMachine := sm;
      abilities := a;
      combat := c;
      ignoreUserInput := false;
      state := Idle;
    }

    /** The swing's own invariant, and every component working on this avatar's
        body, transform, configuration, state flags and state machine. */
    ghost predicate Valid()
      reads swing, swing.hinge, swing.nearbyGrip, combat
    {
      swing.Valid() && swing.rb == rb
      && motor.rb == rb && motor.config == config
      && abilities.rb == rb && abilities.motor == motor && abilities.config == config
      && abilities.stateMachine == stateMachine && abilities.swing == swing
      && combat.rb == rb && combat.motor == motor && combat.abilities == abilities
      && combat.config == config && combat.pState == pState && combat.transform == motor.transform
    }

    /** The swing's tick as this frame runs it, from the state before it. */
    ghost function SwungFrom(s: Swing.SwingState, intent: Intent, dt: real, reach: bool, connected: bool,
                             gripPoint: Vec2): Swing.SwingState
    {
      Swing.TickStep(swing.config, s, intent, dt, reach, connected, gripPoint)
    }

    /** `Update`, with this frame's input, ground and wall probes, frame time, the
        grip's point velocity and whether the attack box found anything. Ignored
        input and a running dash end the frame before any component runs. */
    method Update(intent: Intent, contact: Contact, dt: real, gripPoint: Vec2, struck: bool)
      returns (calls: seq<Call>, ghost sw: Swing.SwingState)
      requires Valid()
      modifies this`state, rb`bodyType, motor`currentMoveSpeed
      modifies swing, rb`gravityScale, rb`velocity, swing.hinge, swing.nearbyGrip
      modifies abilities, motor.transform`scaleX, stateMachine, abilities.dashIcon
      modifies combat`playerClickedAttack, combat`timeSinceAttack, combat`restoreTime, pState, combat.clock
      ensures Valid()
      ensures old(ignoreUserInput) ==> rb.bodyType == Static
      ensures !old(ignoreUserInput) ==>
                rb.bodyType == if old(rb.bodyType) == Static then Dynamic else old(rb.bodyType)
      ensures old(ignoreUserInput) || old(abilities.isDashing) ==>
                && calls == [] && state == old(state)
                && swing.State() == old(swing.State()) && unchanged(swing, swing.hinge)
                && abilities.State() == old(abilities.State()) && unchanged(combat, combat.clock)
                && motor.currentMoveSpeed == old(motor.currentMoveSpeed)
                && (pState != null ==> unchanged(pState))
      ensures !old(ignoreUserInput) && !old(abilities.isDashing) ==>
                && sw == SwungFrom(old(swing.State()), intent, dt, old(swing.GripInReach()),
                                   old(swing.hinge.connectedBody) != null, gripPoint)
                && var ignoreCut := Swing.IgnoresJumpCut(swing.config, sw);
                var consumed := Consumed(intent, ignoreCut);
                && calls == Schedule(false, false, intent, ignoreCut, sw.swinging, abilities.isWallJumping)
                && motor.currentMoveSpeed == MoveSpeedFor(config, Slowed())
                && swing.State() == sw.(gravityScale := rb.gravityScale, velocity := rb.velocity)
                && abilities.State()
                   == AfterSwingStep(config, SharedBody(old(abilities.State()), sw), consumed, contact, ignoreCut,
                                     old(motor.IsKnockbackLocked()), dt, sw.swinging,
                                     AttackLands(config, pState != null, consumed, contact.grounded, struck))
                && CombatState() == CombatStep(config, pState != null, old(CombatState()), consumed, dt, contact.grounded, struck,
                                            combat.restoreTimeSpeed)
                && state == Animated(old(state), intent.horizontal, rb.velocity.y, stateMachine.current)
    {
      calls, sw := [], swing.State();
      if ignoreUserInput {
        rb.bodyType := Static;
        return;
      }
      WakeBody();
      if abilities.isDashing {
        return;
      }
      var consumed;
      calls, sw, consumed := RunComponents(intent, contact, dt, gripPoint, struck);
    }

    /** A static body becomes dynamic again once input is accepted; nothing
        the components read changes. */
    method WakeBody()
      modifies rb`bodyType
      ensures rb.bodyType == if old(rb.bodyType) == Static then Dynamic else old(rb.bodyType)
      ensures swing.State() == old(swing.State()) && swing.GripInReach() == old(swing.GripInReach())
      ensures abilities.State() == old(abilities.State()) && CombatState() == old(CombatState())
      ensures motor.IsKnockbackLocked() == old(motor.IsKnockbackLocked())
    {
      if rb.bodyType == Static {
        rb.bodyType := Dynamic;
      }
    }

    /** Whether the slow effect is on. */
    ghost predicate Slowed()
      reads this, pState
    {
      pState != null && pState.slowed
    }

    /** Combat's attack bookkeeping as a value; without the shared flags only
        the component's own fields and the clock. */
    ghost function CombatState(): AttackState
      reads combat, combat.pState, combat.clock
    {
      if combat.pState != null then combat.AttackSnapshot()
      else AttackState(combat.playerClickedAttack, combat.timeSinceAttack, false, false, false, false,
                       combat.clock.timeScale, combat.restoreTime)
    }

    /** The part of `Update` after the early returns: every component, in order. */
    method RunComponents(intent: Intent, contact: Contact, dt: real, gripPoint: Vec2, struck: bool)
      returns (calls: seq<Call>, ghost sw: Swing.SwingState, consumed: Intent)
      requires Valid()
      modifies this`state, motor`currentMoveSpeed
      modifies swing, rb`gravityScale, rb`velocity, swing.hinge, swing.nearbyGrip
      modifies abilities, motor.transform`scaleX, stateMachine, abilities.dashIcon
      modifies combat`playerClickedAttack, combat`timeSinceAttack, combat`restoreTime, pState, combat.clock
      ensures Valid()
      ensures rb.bodyType == old(rb.bodyType)
      ensures sw == SwungFrom(old(swing.State()), intent, dt, old(swing.GripInReach()),
                              old(swing.hinge.connectedBody) != null, gripPoint)
      ensures consumed == Consumed(intent, Swing.IgnoresJumpCut(swing.config, sw))
      ensures calls == Schedule(false, false, intent, Swing.IgnoresJumpCut(swing.config, sw), sw.swinging,
                                abilities.isWallJumping)
      ensures motor.currentMoveSpeed == MoveSpeedFor(config, Slowed())
      ensures swing.State() == sw.(gravityScale := rb.gravityScale, velocity := rb.velocity)
      ensures abilities.State()
              == AfterSwingStep(config, SharedBody(old(abilities.State()), sw), consumed, contact,
                                Swing.IgnoresJumpCut(swing.config, sw), old(motor.IsKnockbackLocked()), dt, sw.swinging,
                                AttackLands(config, pState != null, consumed, contact.grounded, struck))
      ensures CombatState() == CombatStep(config, pState != null, old(CombatState()), consumed, dt, contact.grounded, struck,
                                          combat.restoreTimeSpeed)
      ensures state == Animated(old(state), intent.horizontal, rb.velocity.y, stateMachine.current)
    {
      ghost var locked := motor.IsKnockbackLocked();
      consumed, sw := SlowAndSwing(intent, dt, gripPoint);
      ghost var ignoreCut := Swing.IgnoresJumpCut(swing.config, sw);
      var rest := RunAfterSwing(consumed, contact, dt, struck, intent.horizontal, ignoreCut, locked, sw.swinging);
      calls := [SlowEffect, SwingTick(intent)] + rest;
      ScheduleSplits(intent, ignoreCut, sw.swinging, abilities.isWallJumping, rest);
    }

    /** The slow effect and the swing's tick, and the intent the rest of the
        frame sees. */
    method SlowAndSwing(intent: Intent, dt: real, gripPoint: Vec2) returns (consumed: Intent, ghost sw: Swing.SwingState)
      requires Valid()
      modifies motor`currentMoveSpeed, swing, rb`gravityScale, rb`velocity, swing.hinge, swing.nearbyGrip
      ensures Valid()
      ensures rb.bodyType == old(rb.bodyType)
      ensures motor.currentMoveSpeed == MoveSpeedFor(config, Slowed())
      ensures sw == SwungFrom(old(swing.State()), intent, dt, old(swing.GripInReach()),
                              old(swing.hinge.connectedBody) != null, gripPoint)
      ensures swing.State() == sw
      ensures abilities.State() == SharedBody(old(abilities.State()), sw)
      ensures swing.ShouldIgnoreJumpCut() == Swing.IgnoresJumpCut(swing.config, sw)
      ensures consumed == Consumed(intent, Swing.IgnoresJumpCut(swing.config, sw))
      ensures CombatState() == old(CombatState())
    {
      TickSlowEffect();
      TickSwing(intent, dt, gripPoint);
      sw := swing.State();
      consumed := intent;
      if swing.ShouldIgnoreJumpCut() {
        consumed := consumed.(jumpUp := false);
      }
    }

    /** Abilities (unless swinging), combat, animation and facing, with the
        intent as consumed after the swing. */
    method RunAfterSwing(consumed: Intent, contact: Contact, dt: real, struck: bool, horizontal: real,
                         ghost ignoreCut: bool, ghost locked: bool, ghost swinging: bool)
      returns (calls: seq<Call>)
      requires Valid() && consumed.horizontal == horizontal
      requires ignoreCut == swing.ShouldIgnoreJumpCut() && locked == motor.IsKnockbackLocked()
      requires swinging == swing.IsSwinging()
      modifies this`state
      modifies abilities, rb`velocity, rb`gravityScale, motor.transform`scaleX, stateMachine, abilities.dashIcon
      modifies combat`playerClickedAttack, combat`timeSinceAttack, combat`restoreTime, pState, combat.clock
      ensures Valid() && unchanged(swing, swing.hinge)
      ensures rb.bodyType == old(rb.bodyType)
      ensures motor.currentMoveSpeed == old(motor.currentMoveSpeed)
      ensures Slowed() == old(Slowed())
      ensures swing.State() == old(swing.State()).(gravityScale := rb.gravityScale, velocity := rb.velocity)
      ensures calls == (if swinging then [] else [AbilitiesTick(consumed)])
                       + [CombatTick(consumed), Animate(horizontal)]
                       + (if !abilities.isWallJumping && !swinging then [FlipFacing(horizontal)] else [])
      ensures abilities.State()
              == AfterSwingStep(config, old(abilities.State()), consumed, contact, ignoreCut, locked, dt, swinging,
                                AttackLands(config, pState != null, consumed, contact.grounded, struck))
      ensures CombatState() == CombatStep(config, pState != null, old(CombatState()), consumed, dt, contact.grounded, struck,
                                            combat.restoreTimeSpeed)
      ensures state == Animated(old(state), horizontal, rb.velocity.y, stateMachine.current)
    {
      ghost var a0 := abilities.State();
      var first := AbilitiesAndCombat(consumed, contact, dt, struck, ignoreCut, locked, swinging);
      UpdateAnimationState(horizontal);
      var flip := FlipUnlessBusy(horizontal, locked, swinging);
      calls := first + [Animate(horizontal)] + flip;
      AfterSwingSplits(config, a0, consumed, contact, ignoreCut, locked, dt, swinging,
                       AttackLands(config, pState != null, consumed, contact.grounded, struck));
    }

    /** The abilities' tick unless swinging, then combat's. */
    method AbilitiesAndCombat(consumed: Intent, contact: Contact, dt: real, struck: bool,
                              ghost ignoreCut: bool, ghost locked: bool, ghost swinging: bool)
      returns (calls: seq<Call>)
      requires Valid()
      requires ignoreCut == swing.ShouldIgnoreJumpCut() && locked == motor.IsKnockbackLocked()
      requires swinging == swing.IsSwinging()
      modifies abilities, rb`velocity, rb`gravityScale, motor.transform`scaleX, stateMachine, abilities.dashIcon
      modifies combat`playerClickedAttack, combat`timeSinceAttack, combat`restoreTime, pState, combat.clock
      ensures Valid() && unchanged(swing, swing.hinge)
      ensures rb.bodyType == old(rb.bodyType)
      ensures Slowed() == old(Slowed())
      ensures calls == (if swinging then [] else [AbilitiesTick(consumed)]) + [CombatTick(consumed)]
      ensures abilities.State()
              == Refreshed(Ticked(config, old(abilities.State()), consumed, contact, ignoreCut, locked, dt, swinging),
                           AttackLands(config, pState != null, consumed, contact.grounded, struck))
      ensures CombatState() == CombatStep(config, pState != null, old(CombatState()), consumed, dt, contact.grounded, struck,
                                            combat.restoreTimeSpeed)
    {
      calls := [];
      if !swing.IsSwinging() {
        TickAbilities(consumed, contact, dt);
        calls := [AbilitiesTick(consumed)];
      }
      TickCombat(consumed, dt, contact.grounded, struck);
      calls := calls + [CombatTick(consumed)];
    }

    /** The flip of `Update`, skipped while wall jumping or swinging. */
    method FlipUnlessBusy(horizontal: real, ghost locked: bool, ghost swinging: bool) returns (calls: seq<Call>)
      requires Valid() && locked == motor.IsKnockbackLocked() && swinging == swing.IsSwinging()
      modifies motor.transform`scaleX
      ensures calls == if !abilities.isWallJumping && !swinging then [FlipFacing(horizontal)] else []
      ensures abilities.State() == Flipped(old(abilities.State()), horizontal, locked, swinging)
    {
      calls := [];
      if !abilities.isWallJumping && !swing.IsSwinging() {
        motor.Flip(horizontal, false);
        calls := [FlipFacing(horizontal)];
      }
    }

    /** The swing's `Tick`; the abilities see its effect on the shared body. */
    method TickSwing(intent: Intent, dt: real, gripPoint: Vec2)
      requires Valid()
      modifies swing, rb`gravityScale, rb`velocity, swing.hinge, swing.nearbyGrip
      ensures Valid()
      ensures swing.State() == SwungFrom(old(swing.State()), intent, dt, old(swing.GripInReach()),
                                         old(swing.hinge.connectedBody) != null, gripPoint)
      ensures abilities.State() == SharedBody(old(abilities.State()), swing.State())
      ensures motor.currentMoveSpeed == old(motor.currentMoveSpeed) && Slowed() == old(Slowed())
      ensures CombatState() == old(CombatState())
    {
      swing.Tick(intent, dt, gripPoint);
    }

    /** The motor's slow effect, which touches nothing the other components read. */
    method TickSlowEffect()
      requires Valid()
      modifies motor`currentMoveSpeed
      ensures motor.currentMoveSpeed == MoveSpeedFor(config, Slowed())
      ensures swing.State() == old(swing.State()) && swing.GripInReach() == old(swing.GripInReach())
      ensures swing.hinge.connectedBody == old(swing.hinge.connectedBody)
      ensures abilities.State() == old(abilities.State()) && CombatState() == old(CombatState())
    {
      motor.TickSlowEffect(pState);
    }

    /** The abilities' `Tick`, which leaves the swing alone. */
    method TickAbilities(intent: Intent, contact: Contact, dt: real)
      requires Valid()
      modifies abilities, rb`velocity, rb`gravityScale, motor.transform`scaleX
      modifies stateMachine, abilities.dashIcon
      ensures Valid()
      ensures abilities.State() == Abilities.TickStep(config, old(abilities.State()), intent, contact,
                                                      old(swing.ShouldIgnoreJumpCut()),
                                                      old(motor.IsKnockbackLocked()), dt)
      ensures unchanged(swing, swing.hinge) && Slowed() == old(Slowed()) && CombatState() == old(CombatState())
    {
      abilities.Tick(intent, contact, dt);
    }

    /** The combat `Tick`, which leaves the swing alone. */
    method TickCombat(intent: Intent, dt: real, grounded: bool, struck: bool)
      requires Valid()
      modifies combat`playerClickedAttack, combat`timeSinceAttack, combat`restoreTime, pState, combat.clock
      modifies abilities
      ensures Valid()
      ensures Slowed() == old(Slowed()) && unchanged(swing, swing.hinge)
      ensures abilities.State()
              == Refreshed(old(abilities.State()), AttackLands(config, pState != null, intent, grounded, struck))
      ensures CombatState() == CombatStep(config, pState != null, old(CombatState()), intent, dt, grounded, struck,
                                            combat.restoreTimeSpeed)
    {
      combat.Tick(intent, dt, grounded, struck);
    }

    /** `FixedUpdate`, with the frame's input, the ground probe, the fixed step
        and the motor's easing factor. A running dash skips it; otherwise the
        motor steps, then combat's recoil step works on the velocity the motor
        left. While the swing blocks the motor the knockback lock does not run
        down. */
    method FixedUpdate(intent: Intent, grounded: bool, dt: real, easing: real)
      requires Valid()
      modifies motor`knockbackLockTimer, rb`velocity, rb`gravityScale
      modifies combat`stepsXRecoiled, combat`stepsYRecoiled, combat`wasRecoilingY, pState
      ensures old(abilities.isDashing) ==> unchanged(motor, rb, combat)
      ensures old(abilities.isDashing) && pState != null ==> unchanged(pState)
      ensures !old(abilities.isDashing) ==>
                var h := HorizontalStep(config, old(motor.State()),
                           Drive(intent.horizontal, BlockMovement(old(abilities.isWallJumping), old(swing.ShouldBlockMotor())),
                                 old(rb.bodyType) == Static, grounded, dt, easing));
                && motor.State() == h.(velocity := rb.velocity)
                && (pState == null ==> rb.velocity == h.velocity && rb.gravityScale == old(rb.gravityScale))
                && (pState != null ==>
                      combat.RecoilSnapshot()
                      == RecoilStep(config, old(combat.RecoilSnapshot()).(velocity := h.velocity),
                                    RecoilInput(intent.vertical, old(motor.transform.scaleX) > 0.0, grounded),
                                    combat.gravity))
      ensures old(swing.ShouldBlockMotor()) ==> motor.knockbackLockTimer == old(motor.knockbackLockTimer)
    {
      if abilities.isDashing {
        return;
      }
      var block := BlockMovement(abilities.isWallJumping, swing.ShouldBlockMotor());
      motor.FixedTickHorizontal(intent.horizontal, block, grounded, dt, easing);
      combat.FixedTick(intent.vertical, grounded);
    }

    /** `UpdateAnimationState`. */
    method UpdateAnimationState(horizontal: real)
      modifies this`state
      ensures state == Animated(old(state), horizontal, rb.velocity.y, stateMachine.current)
    {
      if stateMachine.IsWallJumping() {
        return;
      }
      if horizontal == 0.0 {
        state := Idle;
      } else if horizontal != 0.0 {
        state := RunningRight;
      } else {
        // the running-left branch: no input reaches it
        assert false;
      }
      if rb.velocity.y > 0.1 {
        state := Jumping;
      } else if rb.velocity.y < -0.1 {
        state := Falling;
      }
      if stateMachine.IsWallSliding() {
        state := WallSliding;
      }
      if stateMachine.IsDashing() {
        state := Dashing;
      }
    }

    /** `HitStopTime`, passed on to the combat component. */
    method HitStopTime(newTimeScale: real, restoreSpeed: int, delay: real)
      modifies combat`restoreTimeSpeed, combat`restoreTime, combat.clock
      ensures combat.clock.timeScale == newTimeScale && combat.restoreTime
      ensures combat.restoreTimeSpeed == restoreSpeed as real
    {
      combat.HitStopTime(newTimeScale, restoreSpeed, delay);
    }
  }
}
