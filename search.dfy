/** The first-match linear search the world scripts write as `for` loops with an
    early exit (room by id, room by scene name, exit by destination). */
module Search {

  /** The index of the first element satisfying `p`, or `|xs|` when none does. */
  function FirstMatch<T>(xs: seq<T>, p: T -> bool): (k: nat)
    ensures k <= |xs|
    ensures forall j :: 0 <= j < k ==> !p(xs[j])
    ensures k < |xs| ==> p(xs[k])
    ensures k == |xs| <==> forall j :: 0 <= j < |xs| ==> !p(xs[j])
    decreases |xs|
  {
    if xs == [] then 0
    else if p(xs[0]) then 0
    else
      var k := 1 + FirstMatch(xs[1..], p);
      assert forall j :: 1 <= j < |xs| ==> xs[j] == xs[1..][j - 1];
      k
  }
}
