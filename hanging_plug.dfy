/** `HangingPlug`: a cable of hinged segments hanging from a static anchor, built
    once, whose last segment carries the grip the avatar swings from. Each
    physics step every segment's drag is switched between an idle profile (so the
    cable settles) and a lighter grabbed profile. Sprites are not modelled. */
module Plugs {
  import opened UnityMath
  import opened Engine
  import opened SwingGrips

  /** The inspector fields of the plug that the build and the step read. */
  datatype PlugConfig = PlugConfig(
    segmentCount: int,
    segmentLength: real,
    segmentMass: real,
    segmentLinearDrag: real,
    segmentAngularDrag: real,
    idleLinearDrag: real,
    idleAngularDrag: real,
    maxBendAngle: real,
    gripRadius: real)

  /** The values the component declares. */
  const DefaultPlug := PlugConfig(12, 0.5, 0.2, 0.5, 0.05, 2.2, 2.2, 18.0, 0.25)

  /** The length of the body array: `Mathf.Max(1, segmentCount)`, so one empty
      slot even for a chain of no segments. */
  function BodySlots(c: PlugConfig): (n: int)
    ensures n >= 1 && n >= c.segmentCount
    ensures c.segmentCount >= 1 ==> n == c.segmentCount
    ensures c.segmentCount < 1 ==> n == 1
  {
    MaxInt(1, c.segmentCount)
  }

  /** How far below the plug's origin segment `i` is placed: `i + 1` segment
      lengths. */
  function SegmentDrop(c: PlugConfig, i: nat): real
  {
    c.segmentLength * ((i + 1) as real)
  }

  /** With a positive length the segments are laid out strictly downwards in order. */
  lemma SegmentsStacked(c: PlugConfig, i: nat, j: nat)
    requires i < j && c.segmentLength > 0.0
    ensures SegmentDrop(c, i) < SegmentDrop(c, j)
  {
  }

  /** Where segment `i`'s hinge meets the body before it, in that body's frame:
      the anchor's centre for the first segment, the bottom end of the previous
      segment otherwise. */
  function ConnectedAnchorFor(c: PlugConfig, i: int): Vec2
  {
    if i == 0 then Zero2 else Vec2(0.0, -c.segmentLength * 0.5)
  }

  /** Where a segment's hinge sits on the segment itself: its top end. */
  function OwnAnchor(c: PlugConfig): Vec2
  {
    Vec2(0.0, c.segmentLength * 0.5)
  }

  /** In the built layout, the joint of every segment after the first joins the
      previous segment's bottom end to its own top end at the same height; the
      first segment's top end starts half a length below the anchor's centre. */
  lemma JointsMeet(c: PlugConfig, i: nat)
    ensures i > 0 ==> -SegmentDrop(c, i - 1) + ConnectedAnchorFor(c, i).y == -SegmentDrop(c, i) + OwnAnchor(c).y
    ensures i == 0 ==> 0.0 + ConnectedAnchorFor(c, i).y == -SegmentDrop(c, i) + OwnAnchor(c).y + c.segmentLength * 0.5
  {
  }

  /** A joint's angle limits: on only for a bend allowance above 0.01 degrees,
      then symmetric about zero. */
  datatype AngleLimits = AngleLimits(useLimits: bool, min: real, max: real)

  function LimitsFor(c: PlugConfig): (l: AngleLimits)
    ensures l.useLimits <==> c.maxBendAngle > 0.01
    ensures l.useLimits ==> l.min == -c.maxBendAngle && l.max == c.maxBendAngle && l.min < l.max
    ensures !l.useLimits ==> l.min == 0.0 && l.max == 0.0
  {
    if c.maxBendAngle > 0.01 then AngleLimits(true, -c.maxBendAngle, c.maxBendAngle)
    else AngleLimits(false, 0.0, 0.0)
  }

  /** A pair of linear and angular drags. */
  datatype Drag = Drag(linear: real, angular: real)

  /** The drag every segment gets in a physics step: the configured segment
      drags while the grip is held, the higher idle drags otherwise. */
  function DragFor(c: PlugConfig, grabbed: bool): (d: Drag)
    ensures d == Drag(c.segmentLinearDrag, c.segmentAngularDrag) || d == Drag(c.idleLinearDrag, c.idleAngularDrag)
    ensures c.idleLinearDrag >= c.segmentLinearDrag && c.idleAngularDrag >= c.segmentAngularDrag
            ==> d.linear >= c.segmentLinearDrag && d.angular >= c.segmentAngularDrag
  {
    if grabbed then Drag(c.segmentLinearDrag, c.segmentAngularDrag)
    else Drag(c.idleLinearDrag, c.idleAngularDrag)
  }

  /** A sanity check of the shipped defaults, not a general property (DragFor
      gives the ordering for any ordered profiles): with the default profiles,
      a released cable is damped harder than a held one. */
  lemma IdleDampsHarder()
    ensures DragFor(DefaultPlug, false).linear > DragFor(DefaultPlug, true).linear
    ensures DragFor(DefaultPlug, false).angular > DragFor(DefaultPlug, true).angular
  {
  }

  /** The number a string of decimal digits spells, most significant first. */
  function DigitsValue(s: string): nat
    requires forall k :: 0 <= k < |s| ==> '0' <= s[k] <= '9'
  {
    if |s| == 0 then 0 else DigitsValue(s[..|s| - 1]) * 10 + (s[|s| - 1] as int - '0' as int)
  }

  /** The decimal digits of `n`. */
  function Digits(n: nat): (s: string)
    ensures |s| >= 1
    ensures forall k :: 0 <= k < |s| ==> '0' <= s[k] <= '9'
    ensures DigitsValue(s) == n
    decreases n
  {
    var d := [(('0' as int) + n % 10) as char];
    if n < 10 then d
    else
      var s := Digits(n / 10) + d;
      assert s[..|s| - 1] == Digits(n / 10);
      s
  }

  /** `{i:00}`: at least two digits, zero-padded. */
  function TwoDigits(n: nat): (s: string)
    ensures |s| >= 2
    ensures forall k :: 0 <= k < |s| ==> '0' <= s[k] <= '9'
    ensures DigitsValue(s) == n
  {
    var d := Digits(n);
    if |d| < 2 then
      var s := "0" + d;
      assert s[..|s| - 1] == "0";
      s
    else d
  }

  /** The name of segment `i`: `PlugGrip` for the last, `PlugSeg_ii` otherwise. */
  function SegmentName(c: PlugConfig, i: nat): string
  {
    if i == c.segmentCount - 1 then "PlugGrip" else "PlugSeg_" + TwoDigits(i)
  }

  /** Segments are named apart: no two indices share a name. */
  lemma SegmentNamesDistinct(c: PlugConfig, i: nat, j: nat)
    requires i != j
    ensures SegmentName(c, i) != SegmentName(c, j)
  {
    var prefix := "PlugSeg_";
    if i != c.segmentCount - 1 && j != c.segmentCount - 1 {
      assert TwoDigits(i) != TwoDigits(j);
      assert (prefix + TwoDigits(i))[|prefix|..] == TwoDigits(i);
      assert (prefix + TwoDigits(j))[|prefix|..] == TwoDigits(j);
    } else if i != c.segmentCount - 1 {
      assert |SegmentName(c, i)| >= 10;
    } else {
      assert |SegmentName(c, j)| >= 10;
    }
  }

  /** Only the last segment is called `PlugGrip`. */
  lemma OnlyLastIsGrip(c: PlugConfig, i: nat)
    ensures SegmentName(c, i) == "PlugGrip" <==> i == c.segmentCount - 1
  {
    if i != c.segmentCount - 1 {
      assert SegmentName(c, i)[4] == 'S';
    }
  }

  /** Segment `i`'s body as the build leaves it: dynamic, at the segment's
      place below `origin`, with the configured mass and the idle drags. */
  ghost predicate BodyBuilt(c: PlugConfig, origin: Vec3, i: nat, body: Rigidbody)
    reads body
  {
    body.position == Vec2(origin.x, origin.y - SegmentDrop(c, i))
    && body.mass == c.segmentMass
    && body.drag == c.idleLinearDrag && body.angularDrag == c.idleAngularDrag
    && body.bodyType == Dynamic
  }

  /** Segment `i`'s joint as the build leaves it: at the anchors of the layout,
      with no collision against the body it hangs from, and with the bend limits
      of the config. */
  ghost predicate Jointed(c: PlugConfig, i: int, hinge: HingeJoint)
    reads hinge
  {
    var l := LimitsFor(c);
    !hinge.autoConfigureConnectedAnchor
    && hinge.connectedAnchor == ConnectedAnchorFor(c, i)
    && hinge.anchor == OwnAnchor(c)
    && !hinge.enableCollision
    && hinge.useLimits == l.useLimits
    && hinge.limitMin == l.min && hinge.limitMax == l.max
  }

  /** The grip parts of segment `i`: on the last segment a trigger circle of the
      grip radius and a fresh, unheld grip on the segment's body; none elsewhere. */
  ghost predicate GripBuilt(c: PlugConfig, i: int, body: Rigidbody, trigger: Collider?, grip: SwingGrip?)
    reads trigger, grip
  {
    if i == c.segmentCount - 1 then
      trigger != null && trigger.isTrigger && trigger.radius == c.gripRadius
      && grip != null && grip.body == body && grip.Valid() && !grip.IsGrabbed()
    else
      trigger == null && grip == null
  }

  /** One segment's game object with the components the build adds to it. */
  class ChainLink {
    const name: string
    const position: Vec3
    const body: Rigidbody
    const hinge: HingeJoint
    /** The trigger circle and the grip, on the last segment only. */
    const trigger: Collider?
    const grip: SwingGrip?

    constructor (name: string, position: Vec3, body: Rigidbody, hinge: HingeJoint,
                 trigger: Collider?, grip: SwingGrip?)
      ensures this.name == name && this.position == position && this.body == body
      ensures this.hinge == hinge && this.trigger == trigger && this.grip == grip
    {
      this.name := name;
      this.position := position;
      this.body := body;
      this.hinge := hinge;
      this.trigger := trigger;
      this.grip := grip;
    }
  }

  /** Segment `i` as the build creates it below `origin`. */
  ghost predicate Built(c: PlugConfig, origin: Vec3, i: nat, link: ChainLink)
    reads link.body, link.hinge, link.trigger, link.grip
  {
    link.position == Vec3(origin.x, origin.y - SegmentDrop(c, i), origin.z)
    && BodyBuilt(c, origin, i, link.body)
    && Jointed(c, i, link.hinge)
    && GripBuilt(c, i, link.body, link.trigger, link.grip)
  }

  /** The joints hang in a chain: the first from `top`, each later one from the
      body of the segment before it. */
  ghost predicate Chained(top: Rigidbody?, links: seq<ChainLink>)
    reads set l | l in links :: l.hinge
  {
    (|links| > 0 ==> links[0].hinge.connectedBody == top)
    && forall j, k :: 0 <= j && k == j + 1 && k < |links| ==> links[k].hinge.connectedBody == links[j].body
  }

  class HangingPlug {
    const config: PlugConfig
    /** `transform.position` of the plug. */
    const origin: Vec3
    var built: bool
    var segmentBodies: array?<Rigidbody?>
    var grip: SwingGrip?
    /** The static body at the top, created by the build. */
    ghost var anchor: Rigidbody?
    /** The segments, in the order the build created them. */
    ghost var links: seq<ChainLink>

    /** Before the build there is nothing; after it, the array holds one slot per
        segment (at least one), slot `i` holds segment `i`'s body, every joint hangs
        from the body above, and the remembered grip is the last segment's. */
    ghost predicate Valid()
      reads this, segmentBodies
    {
      (!built ==> segmentBodies == null && grip == null && anchor == null && links == [])
      && (built ==>
            segmentBodies != null && anchor != null
            && segmentBodies.Length == BodySlots(config)
            && |links| == MaxInt(0, config.segmentCount)
            && (forall i :: 0 <= i < |links| ==> segmentBodies[i] == links[i].body)
            && (forall i :: |links| <= i < segmentBodies.Length ==> segmentBodies[i] == null)
            && grip == (if |links| == 0 then null else links[|links| - 1].grip))
    }

    /** A plug as the scene loads it, not yet built. */
    constructor (config: PlugConfig, origin: Vec3)
      ensures Valid() && !built && this.config == config && this.origin == origin
    {
      this.config := config;
      this.origin := origin;
      built := false;
      segmentBodies := null;
      grip := null;
      anchor := null;
      links := [];
    }

    /** `BuildIfNeeded` (run from `Start`): a second call does nothing; the first
        marks the plug built, creates the static anchor at the origin, then each
        segment top to bottom, each hung from the body above it. */
    method BuildIfNeeded()
      requires Valid()
      modifies this
      ensures Valid() && built
      ensures old(built) ==> unchanged(this)
      ensures !old(built) ==> fresh(segmentBodies) && fresh(anchor)
      ensures !old(built) ==> anchor.bodyType == Static
                              && anchor.position == Vec2(origin.x, origin.y)
      ensures !old(built) ==> forall l :: l in links ==> fresh(l)
      ensures !old(built) ==> forall i :: 0 <= i < |links| ==> Built(config, origin, i, links[i])
      ensures !old(built) ==> Chained(anchor, links)
    {
      if built {
        return;
      }
      built := true;

      var a := new Rigidbody(Vec2(origin.x, origin.y));
      a.bodyType := Static;
      anchor := a;

      segmentBodies := new Rigidbody?[MaxInt(1, config.segmentCount)](_ => null);
      links := [];
      BuildChain(a);
    }

    /** The build loop: segments `0 .. segmentCount - 1`, top to bottom, the
        first hung from `top` and each later one from the segment before it. */
    method BuildChain(top: Rigidbody)
      requires segmentBodies != null && segmentBodies.Length == BodySlots(config)
      requires forall j :: 0 <= j < segmentBodies.Length ==> segmentBodies[j] == null
      requires links == [] && grip == null
      modifies this`links, this`grip, segmentBodies
      ensures |links| == MaxInt(0, config.segmentCount)
      ensures forall j :: 0 <= j < |links| ==> segmentBodies[j] == links[j].body
      ensures forall j :: |links| <= j < segmentBodies.Length ==> segmentBodies[j] == null
      ensures grip == if |links| == 0 then null else links[|links| - 1].grip
      ensures Chained(top, links)
      ensures forall l :: l in links ==> fresh(l)
      ensures forall j :: 0 <= j < |links| ==> Built(config, origin, j, links[j])
    {
      var prevBody := top;
      var i := 0;
      while i < config.segmentCount
        invariant 0 <= i <= MaxInt(0, config.segmentCount)
        invariant |links| == i
        invariant grip == if i > 0 && i == config.segmentCount then links[i - 1].grip else null
        invariant prevBody == if i == 0 then top else links[i - 1].body
        invariant forall j :: 0 <= j < i ==> segmentBodies[j] == links[j].body
        invariant forall j :: i <= j < segmentBodies.Length ==> segmentBodies[j] == null
        invariant Chained(top, links)
        invariant forall l :: l in links ==> fresh(l)
        invariant forall j :: 0 <= j < i ==> Built(config, origin, j, links[j])
      {
        var link := AppendSegment(top, i, prevBody);
        prevBody := link.body;
        i := i + 1;
      }
    }

    /** One pass of the build loop: the segment is built, its body stored in
        slot `i`, and on the last segment its grip remembered; the segments
        built so far stay as they were. */
    method AppendSegment(top: Rigidbody, i: nat, prevBody: Rigidbody) returns (link: ChainLink)
      requires segmentBodies != null && i < segmentBodies.Length && |links| == i
      requires prevBody == if i == 0 then top else links[i - 1].body
      requires Chained(top, links)
      requires forall j :: 0 <= j < i ==> Built(config, origin, j, links[j])
      modifies this`links, this`grip, segmentBodies
      ensures links == old(links) + [link] && fresh(link)
      ensures segmentBodies[i] == link.body
      ensures forall j :: 0 <= j < segmentBodies.Length && j != i ==> segmentBodies[j] == old(segmentBodies[j])
      ensures grip == if i == config.segmentCount - 1 then link.grip else old(grip)
      ensures Chained(top, links)
      ensures forall j :: 0 <= j <= i ==> Built(config, origin, j, links[j])
    {
      label Start:
      link := BuildSegment(i, prevBody);
      StoreSegment(i, link);
      forall j | 0 <= j < i
        ensures Built(config, origin, j, links[j])
      {
        assert links[j] == old@Start(links[j]);
      }
    }

    /** The bookkeeping of one pass: slot `i` gets the segment's body and, on
        the last segment, the plug remembers its grip. */
    method StoreSegment(i: nat, link: ChainLink)
      requires segmentBodies != null && i < segmentBodies.Length
      modifies this`links, this`grip, segmentBodies
      ensures links == old(links) + [link]
      ensures segmentBodies[i] == link.body
      ensures forall j :: 0 <= j < segmentBodies.Length && j != i ==> segmentBodies[j] == old(segmentBodies[j])
      ensures grip == if i == config.segmentCount - 1 then link.grip else old(grip)
    {
      segmentBodies[i] := link.body;
      links := links + [link];
      if i == config.segmentCount - 1 {
        grip := link.grip;
      }
    }

    /** One pass of the build loop: segment `i`'s game object, body, joint to
        `prevBody`, and on the last segment the trigger circle and the grip. */
    method BuildSegment(i: nat, prevBody: Rigidbody) returns (link: ChainLink)
      ensures fresh(link) && fresh(link.body) && fresh(link.hinge)
      ensures link.trigger != null ==> fresh(link.trigger)
      ensures link.grip != null ==> fresh(link.grip)
      ensures Built(config, origin, i, link) && link.hinge.connectedBody == prevBody
      ensures link.name == SegmentName(config, i)
    {
      var body := NewSegmentBody(i);
      var position := Vec3(body.position.x, body.position.y, origin.z);
      var hinge := NewJoint(i, prevBody);
      var trigger, g := NewGripParts(i, body);
      link := new ChainLink(SegmentName(config, i), position, body, hinge, trigger, g);
    }

    /** The segment's `Rigidbody2D`, added at the segment's place and set to the
        configured mass and the idle drags. */
    method NewSegmentBody(i: nat) returns (body: Rigidbody)
      ensures fresh(body) && BodyBuilt(config, origin, i, body)
    {
      var drop := config.segmentLength * ((i + 1) as real);
      body := new Rigidbody(Vec2(origin.x, origin.y - drop));
      body.mass := config.segmentMass;
      body.drag := config.idleLinearDrag;
      body.angularDrag := config.idleAngularDrag;
    }

    /** The segment's `HingeJoint2D`, hung from `prevBody`. */
    method NewJoint(i: nat, prevBody: Rigidbody) returns (hinge: HingeJoint)
      ensures fresh(hinge) && Jointed(config, i, hinge) && hinge.connectedBody == prevBody
    {
      hinge := new HingeJoint();
      hinge.connectedBody := prevBody;
      hinge.autoConfigureConnectedAnchor := false;
      hinge.connectedAnchor := if i == 0 then Zero2 else Vec2(0.0, -config.segmentLength * 0.5);
      hinge.anchor := Vec2(0.0, config.segmentLength * 0.5);
      hinge.enableCollision := false;

      hinge.useLimits := config.maxBendAngle > 0.01;
      if hinge.useLimits {
        hinge.limitMin := -config.maxBendAngle;
        hinge.limitMax := config.maxBendAngle;
      }
    }

    /** On the last segment only, the trigger `CircleCollider2D` and the `SwingGrip`. */
    method NewGripParts(i: nat, body: Rigidbody) returns (trigger: Collider?, g: SwingGrip?)
      ensures trigger != null ==> fresh(trigger)
      ensures g != null ==> fresh(g)
      ensures GripBuilt(config, i, body, trigger, g)
    {
      trigger := null;
      g := null;
      if i == config.segmentCount - 1 {
        trigger := new Collider();
        trigger.radius := config.gripRadius;
        trigger.isTrigger := true;
        g := new SwingGrip(body);
      }
    }

    /** The bodies the step may touch. */
    ghost function Bodies(): set<Rigidbody>
      reads this, segmentBodies
    {
      if segmentBodies == null then {}
      else set i | 0 <= i < segmentBodies.Length && segmentBodies[i] != null :: segmentBodies[i]
    }

    /** `FixedUpdate`: nothing before the build or with no slots; otherwise every
        present segment body gets the drag pair chosen by whether the grip is held. */
    method FixedUpdate()
      modifies Bodies()
      ensures !built || segmentBodies == null || segmentBodies.Length == 0 ==> unchanged(Bodies())
      ensures built && segmentBodies != null ==>
                var d := DragFor(config, grip != null && grip.IsGrabbed());
                forall i :: 0 <= i < segmentBodies.Length && segmentBodies[i] != null
                  ==> segmentBodies[i].drag == d.linear && segmentBodies[i].angularDrag == d.angular
      ensures forall b :: b in Bodies() ==>
                b.mass == old(b.mass) && b.position == old(b.position)
                && b.velocity == old(b.velocity) && b.bodyType == old(b.bodyType)
                && b.gravityScale == old(b.gravityScale)
    {
      if !built {
        return;
      }
      if segmentBodies == null || segmentBodies.Length == 0 {
        return;
      }

      var grabbed := grip != null && grip.IsGrabbed();
      var targetDrag := if grabbed then config.segmentLinearDrag else config.idleLinearDrag;
      var targetAngDrag := if grabbed then config.segmentAngularDrag else config.idleAngularDrag;

      var i := 0;
      while i < segmentBodies.Length
        invariant 0 <= i <= segmentBodies.Length
        invariant forall j :: 0 <= j < i && segmentBodies[j] != null
                    ==> segmentBodies[j].drag == targetDrag && segmentBodies[j].angularDrag == targetAngDrag
        invariant forall b :: b in Bodies() ==>
                    b.mass == old(b.mass) && b.position == old(b.position)
                    && b.velocity == old(b.velocity) && b.bodyType == old(b.bodyType)
                    && b.gravityScale == old(b.gravityScale)
      {
        var b := segmentBodies[i];
        if b != null {
          b.drag := targetDrag;
          b.angularDrag := targetAngDrag;
        }
        i := i + 1;
      }
    }
  }
}
