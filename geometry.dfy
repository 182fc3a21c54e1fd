/**
 * Plane geometry of the schematic layout: points, the four drawing
 * directions, moving a point along a direction, and the perpendicular
 * offsets that spread the branches of a parallel group.
 *
 * Coordinates are `real`, so `total_span/2` in the offset formula is exact.
 */
module Geometry {

  /** The four directions schemdraw elements can be drawn in. */
  datatype Direction = Right | Left | Up | Down

  datatype Point = Point(x: real, y: real)

  /** Distance between the entry and exit junction of a parallel group. */
  const BranchLength: real := 3.0

  /**
   * The layout engine receives its direction as a name. Every test on it
   * falls through to "down" for a name other than "right", "left" and "up",
   * so any other name behaves exactly as "down".
   */
  function ParseDirection(name: string): (d: Direction)
    ensures IsHorizontal(d) <==> name == "right" || name == "left"
    ensures d == Down <==> name != "right" && name != "left" && name != "up"
  {
    if name == "right" then Right
    else if name == "left" then Left
    else if name == "up" then Up
    else Down
  }

  predicate IsHorizontal(d: Direction)
  {
    d == Right || d == Left
  }

  /** +1 when the direction increases its axis coordinate, -1 otherwise. */
  function Sign(d: Direction): real
  {
    if d == Right || d == Up then 1.0 else -1.0
  }

  /** The coordinate along which `d` moves (x for right/left, y for up/down). */
  function MainCoord(p: Point, d: Direction): real
  {
    if IsHorizontal(d) then p.x else p.y
  }

  /** The coordinate perpendicular to `d`, along which branches are stacked. */
  function PerpCoord(p: Point, d: Direction): real
  {
    if IsHorizontal(d) then p.y else p.x
  }

  /** The point `dist` units from `p` in direction `d`. */
  function Move(p: Point, d: Direction, dist: real): (q: Point)
    ensures MainCoord(q, d) == MainCoord(p, d) + Sign(d) * dist
    ensures PerpCoord(q, d) == PerpCoord(p, d)
  {
    match d
    case Right => Point(p.x + dist, p.y)
    case Left => Point(p.x - dist, p.y)
    case Up => Point(p.x, p.y + dist)
    case Down => Point(p.x, p.y - dist)
  }

  /** The point `off` units from `p` along the axis perpendicular to `d`. */
  function Shift(p: Point, d: Direction, off: real): (q: Point)
    ensures MainCoord(q, d) == MainCoord(p, d)
    ensures PerpCoord(q, d) == PerpCoord(p, d) + off
  {
    if IsHorizontal(d) then Point(p.x, p.y + off) else Point(p.x + off, p.y)
  }

  /** Moving twice along the same direction is one move by the summed distance. */
  lemma MoveTwice(p: Point, d: Direction, a: real, b: real)
    ensures Move(Move(p, d, a), d, b) == Move(p, d, a + b)
  {
  }

  /** `q` is not behind `p` when looking along `d`. */
  predicate NotBehind(q: Point, p: Point, d: Direction)
  {
    if d == Right || d == Up then MainCoord(q, d) >= MainCoord(p, d) else MainCoord(q, d) <= MainCoord(p, d)
  }

  /** Moving a non-negative distance never goes against the direction. */
  lemma MoveForward(p: Point, d: Direction, dist: real)
    requires dist >= 0.0
    ensures NotBehind(Move(p, d, dist), p, d)
  {
  }

  /**
   * Perpendicular offset of branch `i` of `n`: the branches span
   * `spacing * (n - 1)` and are centred on the main axis.
   */
  function Offset(i: nat, n: nat, spacing: real): real
  {
    -(spacing * (n as real - 1.0)) / 2.0 + i as real * spacing
  }

  /** Neighbouring branches are exactly `spacing` apart. */
  lemma OffsetStep(i: nat, n: nat, spacing: real)
    ensures Offset(i + 1, n, spacing) - Offset(i, n, spacing) == spacing
  {
  }

  /** Branch `i` and branch `n - 1 - i` mirror each other across the main axis. */
  lemma OffsetSymmetric(i: nat, n: nat, spacing: real)
    requires i < n
    ensures Offset(i, n, spacing) == -Offset(n - 1 - i, n, spacing)
  {
  }

  function Abs(r: real): real
  {
    if r < 0.0 then -r else r
  }

  /** Offset as a multiple of `spacing`: branch `i` sits `i - (n-1)/2` spacings off the axis. */
  lemma OffsetFactored(i: nat, n: nat, spacing: real)
    ensures Offset(i, n, spacing) == spacing * (i as real - (n as real - 1.0) / 2.0)
  {
    var h := (n as real - 1.0) / 2.0;
    assert spacing * (n as real - 1.0) == spacing * (2.0 * h);
    assert spacing * (i as real - h) == i as real * spacing - spacing * h;
  }

  lemma MulAbs(a: real, b: real)
    ensures Abs(a * b) == Abs(a) * Abs(b)
  {
    if a < 0.0 && b < 0.0 {
      assert a * b == (-a) * (-b);
    } else if a < 0.0 {
      assert -(a * b) == (-a) * b;
    } else if b < 0.0 {
      assert -(a * b) == a * (-b);
    }
  }

  lemma MulMonotone(a: real, b: real, c: real)
    requires a >= 0.0 && b <= c
    ensures a * b <= a * c
  {
    assert a * c - a * b == a * (c - b);
  }

  /** Every branch lies within half the total span of the main axis. */
  lemma OffsetBounded(i: nat, n: nat, spacing: real)
    requires i < n
    ensures Abs(Offset(i, n, spacing)) <= Abs(spacing) * ((n as real - 1.0) / 2.0)
  {
    var h := (n as real - 1.0) / 2.0;
    var t := i as real - h;
    OffsetFactored(i, n, spacing);
    assert Offset(i, n, spacing) == spacing * t;
    assert Abs(t) <= h;
    MulAbs(spacing, t);
    MulMonotone(Abs(spacing), Abs(t), h);
    calc {
      Abs(Offset(i, n, spacing));
    ==
      Abs(spacing * t);
    ==
      Abs(spacing) * Abs(t);
    <=
      Abs(spacing) * h;
    }
  }

  /** Sum of the offsets of the first `k` of `n` branches. */
  function OffsetSum(k: nat, n: nat, spacing: real): real
  {
    if k == 0 then 0.0 else OffsetSum(k - 1, n, spacing) + Offset(k - 1, n, spacing)
  }

  lemma {:induction false} OffsetSumClosedForm(k: nat, n: nat, spacing: real)
    ensures OffsetSum(k, n, spacing) == spacing * ((k as real) * (k as real - n as real) / 2.0)
  {
    if k > 0 {
      OffsetSumClosedForm(k - 1, n, spacing);
      OffsetFactored(k - 1, n, spacing);
      var a := (k - 1) as real;
      var m := n as real;
      var before := a * (a - m) / 2.0;
      var step := a - (m - 1.0) / 2.0;
      assert before + step == (a + 1.0) * (a + 1.0 - m) / 2.0;
      assert OffsetSum(k, n, spacing) == spacing * before + spacing * step;
      assert spacing * before + spacing * step == spacing * (before + step);
    }
  }

  /** The branches of a group are balanced: their offsets add up to zero. */
  lemma OffsetsSumToZero(n: nat, spacing: real)
    ensures OffsetSum(n, n, spacing) == 0.0
  {
    OffsetSumClosedForm(n, n, spacing);
  }
}
