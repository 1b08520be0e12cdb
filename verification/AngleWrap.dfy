/**
 Wrapping of angles to (-pi, pi], and the position that the outer loop counts from wrapped angles.

 Angles are reals; PI is the single-precision constant that the code uses.
 */
module AngleWrap {

  const PI: real := 13176795.0 / 4194304.0
  const TURN: real := 2.0 * PI

  predicate InRange(x: real) { -PI < x <= PI }

  /** The angles differ by `k` whole turns. */
  predicate TurnsApart(a: real, b: real, k: int) { a - b == k as real * TURN }

  ghost predicate SameAngle(a: real, b: real) { exists k: int :: TurnsApart(a, b, k) }

  /** Whole turns to take off: the smallest number that reaches PI. */
  function Turns(x: real): (r: int) { -((PI - x) / TURN).Floor }

  function Wrapped(x: real): (r: real) { x - Turns(x) as real * TURN }

  lemma WrappedInRange(x: real)
    ensures InRange(Wrapped(x)) && TurnsApart(x, Wrapped(x), Turns(x))
  {
    var q := (PI - x) / TURN;
    var f := q.Floor;
    assert f as real <= q < f as real + 1.0;
    assert q * TURN == PI - x;
    ScaleTurn(f as real, q);
    ScaleTurn(q, f as real + 1.0);
    assert Wrapped(x) == x + f as real * TURN;
  }

  lemma ScaleTurn(a: real, b: real)
    ensures a <= b ==> a * TURN <= b * TURN
    ensures a < b ==> a * TURN < b * TURN
  {
  }

  /** Each angle has one representative in the range. */
  lemma UniqueInRange(a: real, b: real, k: int)
    requires InRange(a) && InRange(b) && TurnsApart(a, b, k)
    ensures k == 0 && a == b
  {
    if k >= 1 {
      ScaleTurn(1.0, k as real);
    } else if k <= -1 {
      ScaleTurn(k as real, -1.0);
    }
  }

  lemma WrappedIsUnique(x: real, y: real, k: int)
    requires InRange(y) && TurnsApart(x, y, k)
    ensures y == Wrapped(x) && k == Turns(x)
  {
    WrappedInRange(x);
    TurnsAdd(x, y, Wrapped(x), k, Turns(x));
    UniqueInRange(Wrapped(x), y, k - Turns(x));
  }

  lemma TurnsAdd(x: real, y: real, z: real, k: int, m: int)
    requires TurnsApart(x, y, k) && TurnsApart(x, z, m)
    ensures TurnsApart(z, y, k - m)
  {
    assert (k - m) as real * TURN == k as real * TURN - m as real * TURN;
  }

  /** WrapAngle(): each pass of a loop takes off or adds one turn. */
  method WrapAngle(angle: real) returns (value: real)
    ensures value == Wrapped(angle) && InRange(value)
  {
    value := angle;
    ghost var k := 0;
    while value > PI
      invariant TurnsApart(angle, value, k)
      invariant angle <= PI ==> value == angle
      invariant value > -PI || value == angle
      decreases (value / TURN).Floor
    {
      assert (value - TURN) / TURN == value / TURN - 1.0;
      value := value - TURN;
      k := k + 1;
    }
    while value <= -PI
      invariant TurnsApart(angle, value, k) && value <= PI
      decreases (-value / TURN).Floor
    {
      assert -(value + TURN) / TURN == -value / TURN - 1.0;
      value := value + TURN;
      k := k - 1;
    }
    WrappedIsUnique(angle, value, k);
  }

  // ----- The counted position -------------------------------------------------------------------

  /**
   One step adds the wrapped difference of two seen angles. It adds the true displacement exactly
   when that displacement is in (-pi, pi], whatever turns the seen angles have lost.
   */
  lemma StepIsTrue(trueBefore: real, trueNow: real, seenBefore: real, seenNow: real, k: int, m: int)
    requires TurnsApart(seenBefore, trueBefore, k) && TurnsApart(seenNow, trueNow, m)
    ensures Wrapped(seenNow - seenBefore) == trueNow - trueBefore <==> InRange(trueNow - trueBefore)
  {
    var (seen, moved) := (seenNow - seenBefore, trueNow - trueBefore);
    assert (m - k) as real * TURN == m as real * TURN - k as real * TURN;
    assert TurnsApart(seen, moved, m - k);
    WrappedInRange(seen);
    if InRange(moved) {
      WrappedIsUnique(seen, moved, m - k);
    }
  }

  /** Sum of the wrapped differences of the seen angles. */
  function Counted(seen: seq<real>): (r: real) {
    if |seen| <= 1 then 0.0
    else Counted(seen[..|seen| - 1]) + Wrapped(seen[|seen| - 1] - seen[|seen| - 2])
  }

  ghost predicate Sees(seen: seq<real>, angles: seq<real>) {
    |seen| == |angles| && forall i :: 0 <= i < |seen| ==> SameAngle(seen[i], angles[i])
  }

  predicate MovesLessThanHalfTurns(angles: seq<real>) {
    forall i :: 0 < i < |angles| ==> InRange(angles[i] - angles[i - 1])
  }

  /** Over any run whose steps are below half a turn, the count is the true displacement. */
  lemma {:induction false} CountIsDisplacement(seen: seq<real>, angles: seq<real>)
    requires |angles| > 0 && Sees(seen, angles) && MovesLessThanHalfTurns(angles)
    ensures Counted(seen) == angles[|angles| - 1] - angles[0]
    decreases |seen|
  {
    var n := |seen| - 1;
    if n > 0 {
      CountIsDisplacement(seen[..n], angles[..n]);
      assert SameAngle(seen[n - 1], angles[n - 1]) && SameAngle(seen[n], angles[n]);
      var k :| TurnsApart(seen[n - 1], angles[n - 1], k);
      var m :| TurnsApart(seen[n], angles[n], m);
      StepIsTrue(angles[n - 1], angles[n], seen[n - 1], seen[n], k, m);
      assert InRange(angles[n] - angles[n - 1]);
      assert seen[..n][n - 1] == seen[n - 1];
    }
  }

  /** Position counting of Step(): `tracking` starts with the first angle after a restart. */
  class PositionCount {
    var tracking: bool
    var lastAngle: real
    var position: real
    ghost var seen: seq<real>

    ghost predicate Valid()
      reads this
    {
      && (tracking <==> |seen| > 0)
      && (tracking ==> lastAngle == seen[|seen| - 1] && position == seen[0] + Counted(seen))
    }

    constructor ()
      ensures Valid() && !tracking && seen == []
    {
      tracking, lastAngle, position, seen := false, 0.0, 0.0, [];
    }

    method Restart()
      modifies `tracking, `seen
      ensures Valid() && !tracking && seen == []
    {
      tracking := false;
      seen := [];
    }

    method Advance(angle: real)
      requires Valid()
      modifies this
      ensures Valid() && tracking && seen == old(seen) + [angle]
      ensures position == seen[0] + Counted(seen)
    {
      if tracking {
        var step := WrapAngle(angle - lastAngle);
        position := position + step;
      } else {
        position := angle;
        tracking := true;
      }
      lastAngle := angle;
      ghost var n := |seen|;
      assert (seen + [angle])[..n] == seen;
      seen := seen + [angle];
    }
  }
}
