/** The Unity components the game code reads and writes, reduced to the fields it
    uses. Physics itself (integration, joints, contacts) is not modelled: bodies
    are plain records of state that the game code sets and the caller supplies. */
module Engine {
  import opened UnityMath

  /** `RigidbodyType2D`. */
  datatype BodyType = Dynamic | Kinematic | Static

  /** `Rigidbody2D`: the fields the scripts set or read. */
  class Rigidbody {
    var position: Vec2
    var velocity: Vec2
    var gravityScale: real
    var bodyType: BodyType
    var mass: real
    var drag: real
    var angularDrag: real

    /** A body as `AddComponent<Rigidbody2D>` creates it, at `position`,
        with the engine's defaults. */
    constructor (position: Vec2)
      ensures this.position == position && velocity == Zero2
      ensures gravityScale == 1.0 && bodyType == Dynamic
      ensures mass == 1.0 && drag == 0.0 && angularDrag == 0.05
    {
      this.position := position;
      velocity := Zero2;
      gravityScale := 1.0;
      bodyType := Dynamic;
      mass := 1.0;
      drag := 0.0;
      angularDrag := 0.05;
    }
  }

  /** `HingeJoint2D`: its configuration only; the constraint is solved by the engine. */
  class HingeJoint {
    var enabled: bool
    var connectedBody: Rigidbody?
    var autoConfigureConnectedAnchor: bool
    var connectedAnchor: Vec2
    var anchor: Vec2
    var enableCollision: bool
    var useLimits: bool
    var limitMin: real
    var limitMax: real

    /** A joint as `AddComponent<HingeJoint2D>` creates it. */
    constructor ()
      ensures enabled && connectedBody == null && autoConfigureConnectedAnchor
      ensures connectedAnchor == Zero2 && anchor == Zero2
      ensures !enableCollision && !useLimits && limitMin == 0.0 && limitMax == 0.0
    {
      enabled := true;
      connectedBody := null;
      autoConfigureConnectedAnchor := true;
      connectedAnchor := Zero2;
      anchor := Zero2;
      enableCollision := false;
      useLimits := false;
      limitMin := 0.0;
      limitMax := 0.0;
    }
  }

  /** A `Collider2D`'s switches, and the radius when it is a circle. */
  class Collider {
    var enabled: bool
    var isTrigger: bool
    var radius: real

    constructor ()
      ensures enabled && !isTrigger && radius == 0.5
    {
      enabled := true;
      isTrigger := false;
      radius := 0.5;
    }
  }

  /** A `GameObject`'s active flag. */
  class SceneObject {
    var active: bool

    constructor (active: bool)
      ensures this.active == active
    {
      this.active := active;
    }
  }

  /** The parts of a `Transform` the scripts touch: the position and the sign-carrying
      horizontal scale that encodes facing. */
  class Transform {
    var position: Vec3
    var scaleX: real

    constructor (position: Vec3, scaleX: real)
      ensures this.position == position && this.scaleX == scaleX
    {
      this.position := position;
      this.scaleX := scaleX;
    }
  }

  /** A UI `Image` used as a radial or bar gauge: only its fill amount. */
  class FillImage {
    var fillAmount: real

    constructor ()
      ensures fillAmount == 1.0
    {
      fillAmount := 1.0;
    }
  }

  /** The global `Time.timeScale`. */
  class GameClock {
    var timeScale: real

    constructor ()
      ensures timeScale == 1.0
    {
      timeScale := 1.0;
    }
  }

  /** One `AddForce(..., ForceMode2D.Force)` call, recorded instead of integrated,
      as a direction times a factor times a strength: `Push(d, k, m)` applies
      `d * (k * m)`; `PushAlong(d, k, m)` applies the unit vector along `d` times
      `k * m` (the normalisation itself is not computed). Keeping the factor and
      the strength apart records the call exactly as the game writes it. */
  datatype Force =
    | Push(direction: Vec2, factor: real, strength: real)
    | PushAlong(direction: Vec2, factor: real, strength: real)
}
