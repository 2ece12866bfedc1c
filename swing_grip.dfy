/** `SwingGrip` (Assets/Scripts/World/SwingGrip.cs): a grab reference count on a
    rope's grip link, floored at zero. The rope reads `IsGrabbed` to choose its damping. */
module SwingGrips {
  import opened Engine

  /** The count after one `SetGrabbed(grabbed)` call on `count`: one more for a
      grab, one fewer for a release, never below zero. */
  function CountAfter(count: int, grabbed: bool): (r: int)
    ensures r >= 0
    ensures grabbed && count >= 0 ==> r == count + 1
    ensures !grabbed && count > 0 ==> r == count - 1
    ensures !grabbed && count <= 0 ==> r == 0
  {
    var c := count + (if grabbed then 1 else -1);
    if c < 0 then 0 else c
  }

  /** The count after a sequence of `SetGrabbed` calls, in order. */
  function CountAfterAll(count: int, calls: seq<bool>): int
    decreases |calls|
  {
    if calls == [] then count else CountAfterAll(CountAfter(count, calls[0]), calls[1..])
  }

  /** `n` copies of the same call. */
  function Repeat(grabbed: bool, n: nat): (r: seq<bool>)
    ensures |r| == n && forall i :: 0 <= i < n ==> r[i] == grabbed
  {
    if n == 0 then [] else [grabbed] + Repeat(grabbed, n - 1)
  }

  /** From a non-negative count, no sequence of calls makes the count negative. */
  lemma {:induction false} CountNeverNegative(count: int, calls: seq<bool>)
    requires count >= 0
    ensures CountAfterAll(count, calls) >= 0
    decreases |calls|
  {
    if calls != [] {
      CountNeverNegative(CountAfter(count, calls[0]), calls[1..]);
    }
  }

  /** Running two sequences of calls one after the other is running their concatenation. */
  lemma {:induction false} CountAfterAppend(count: int, first: seq<bool>, second: seq<bool>)
    ensures CountAfterAll(count, first + second) == CountAfterAll(CountAfterAll(count, first), second)
    decreases |first|
  {
    if first != [] {
      assert (first + second)[1..] == first[1..] + second;
      CountAfterAppend(CountAfter(count, first[0]), first[1..], second);
    } else {
      assert first + second == second;
    }
  }

  /** `n` grabs from a non-negative count raise it by exactly `n`. */
  lemma {:induction false} GrabsAdd(count: int, n: nat)
    requires count >= 0
    ensures CountAfterAll(count, Repeat(true, n)) == count + n
    decreases n
  {
    if n > 0 {
      assert Repeat(true, n)[1..] == Repeat(true, n - 1);
      GrabsAdd(count + 1, n - 1);
    }
  }

  /** `n` releases lower a count by `n`, stopping at zero. */
  lemma {:induction false} ReleasesSubtract(count: int, n: nat)
    requires count >= 0
    ensures CountAfterAll(count, Repeat(false, n)) == if count >= n then count - n else 0
    decreases n
  {
    if n > 0 {
      assert Repeat(false, n)[1..] == Repeat(false, n - 1);
      ReleasesSubtract(CountAfter(count, false), n - 1);
    }
  }

  /** From zero, `k` grabs followed by `k` releases leave the grip not grabbed. */
  lemma GrabsThenReleasesEmpty(k: nat)
    ensures CountAfterAll(0, Repeat(true, k) + Repeat(false, k)) == 0
  {
    CountAfterAppend(0, Repeat(true, k), Repeat(false, k));
    GrabsAdd(0, k);
    ReleasesSubtract(k, k);
  }

  class SwingGrip {
    /** `Body`: the grip's own body, present by the component's requirement. */
    const body: Rigidbody
    var grabbedCount: int

    ghost predicate Valid()
      reads this
    {
      grabbedCount >= 0
    }

    /** A grip on `body`, not grabbed. */
    constructor (body: Rigidbody)
      ensures Valid() && this.body == body && grabbedCount == 0 && !IsGrabbed()
    {
      this.body := body;
      grabbedCount := 0;
    }

    /** `IsGrabbed`: at least one holder. */
    predicate IsGrabbed()
      reads this
    {
      grabbedCount > 0
    }

    /** `SetGrabbed`: one grab or one release. */
    method SetGrabbed(grabbed: bool)
      requires Valid()
      modifies this
      ensures Valid()
      ensures grabbedCount == CountAfter(old(grabbedCount), grabbed)
      ensures grabbed ==> grabbedCount == old(grabbedCount) + 1 && IsGrabbed()
      ensures !grabbed ==> grabbedCount == if old(grabbedCount) > 0 then old(grabbedCount) - 1 else 0
    {
      grabbedCount := grabbedCount + (if grabbed then 1 else -1);
      if grabbedCount < 0 {
        grabbedCount := 0;
      }
    }
  }
}
