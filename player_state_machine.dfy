/** `PlayerStateMachine` (Assets/Scripts/Player/PlayerStateMachine.cs): the avatar's
    current locomotion state, which `PlayerAbilities` writes and the animation reads. */
module StateMachine {

  /** `PlayerMovementState`, in declaration order. */
  datatype MovementState = Grounded | Airborne | WallSliding | Dashing | WallJumping

  /** The five `Is*` answers for a state, in declaration order. */
  function Answers(s: MovementState): seq<bool>
  {
    [s == Grounded, s == Airborne, s == WallSliding, s == Dashing, s == WallJumping]
  }

  /** How many of the answers are yes. */
  function CountTrue(bs: seq<bool>): (n: nat)
    ensures n <= |bs|
  {
    if bs == [] then 0 else (if bs[0] then 1 else 0) + CountTrue(bs[1..])
  }

  lemma CountFront(b: bool, rest: seq<bool>)
    ensures CountTrue([b] + rest) == (if b then 1 else 0) + CountTrue(rest)
  {
    assert ([b] + rest)[1..] == rest;
  }

  /** Exactly one `Is*` predicate holds, whatever the state. */
  lemma ExactlyOneHolds(s: MovementState)
    ensures CountTrue(Answers(s)) == 1
  {
    var a := Answers(s);
    assert a == [a[0]] + ([a[1]] + ([a[2]] + ([a[3]] + ([a[4]] + []))));
    CountFront(a[4], []);
    CountFront(a[3], [a[4]] + []);
    CountFront(a[2], [a[3]] + ([a[4]] + []));
    CountFront(a[1], [a[2]] + ([a[3]] + ([a[4]] + [])));
    CountFront(a[0], [a[1]] + ([a[2]] + ([a[3]] + ([a[4]] + []))));
  }

  class PlayerStateMachine {
    var current: MovementState

    /** A new component starts `Grounded`. */
    constructor ()
      ensures current == Grounded
    {
      current := Grounded;
    }

    predicate IsGrounded()
      reads this
    {
      current == Grounded
    }

    predicate IsAirborne()
      reads this
    {
      current == Airborne
    }

    predicate IsWallSliding()
      reads this
    {
      current == WallSliding
    }

    predicate IsDashing()
      reads this
    {
      current == Dashing
    }

    predicate IsWallJumping()
      reads this
    {
      current == WallJumping
    }

    /** The five `Is*` answers of this component, in declaration order. */
    function Flags(): seq<bool>
      reads this
    {
      [IsGrounded(), IsAirborne(), IsWallSliding(), IsDashing(), IsWallJumping()]
    }

    /** `Set`: the state becomes `s`; the `Is*` answers are those of `s`, so exactly
        one of them holds. */
    method Set(s: MovementState)
      modifies this
      ensures current == s
      ensures Flags() == Answers(s)
      ensures CountTrue(Flags()) == 1
    {
      current := s;
      ExactlyOneHolds(s);
    }
  }
}
