/**
 * The rotating background: an integer angle that every timer tick decreases by one
 * degree modulo 360, and the integer translations the paint handler computes before
 * rotating. Dafny's `%` agrees with Python's for the positive divisor 360, and
 * Dafny's `/` agrees with Python's `//` for the positive divisor 2.
 */
module Background {

  const FullTurn: int := 360

  /** One timer tick: `angle := (angle - 1) % 360`. */
  function Tick(angle: int): (r: int)
    ensures 0 <= r < FullTurn
    ensures 0 < angle <= FullTurn ==> r == angle - 1
    ensures angle == 0 ==> r == FullTurn - 1
  {
    (angle - 1) % FullTurn
  }

  /** `n` ticks in a row. */
  function Ticks(angle: int, n: nat): int
    decreases n
  {
    if n == 0 then angle else Tick(Ticks(angle, n - 1))
  }

  /** Taking one away after reducing is the same as reducing after taking one away. */
  lemma ModPred(a: int)
    ensures (a % FullTurn - 1) % FullTurn == (a - 1) % FullTurn
  {
    var q := a / FullTurn;
    assert a == FullTurn * q + a % FullTurn;
    assert a - 1 == FullTurn * q + (a % FullTurn - 1);
  }

  /** After `n` ticks the angle has gone `n` degrees down, modulo a full turn. */
  lemma {:induction false} TicksClosedForm(angle: int, n: nat)
    requires 0 <= angle < FullTurn
    ensures Ticks(angle, n) == (angle - n) % FullTurn
    decreases n
  {
    if n > 0 {
      TicksClosedForm(angle, n - 1);
      ModPred(angle - (n - 1));
    }
  }

  /** Reduction modulo a full turn, on a value at most one turn below the range. */
  lemma ModOneTurn(k: int)
    requires -FullTurn <= k < FullTurn
    ensures k % FullTurn == if k < 0 then k + FullTurn else k
  {
    var r := if k < 0 then k + FullTurn else k;
    assert k == FullTurn * (if k < 0 then -1 else 0) + r;
  }

  /** Starting anywhere in range, 360 ticks come back to the start, and no fewer do. */
  lemma FullTurnPeriod(angle: int, n: nat)
    requires 0 <= angle < FullTurn
    ensures Ticks(angle, FullTurn) == angle
    ensures 0 < n < FullTurn ==> Ticks(angle, n) != angle
  {
    TicksClosedForm(angle, FullTurn);
    ModOneTurn(angle - FullTurn);
    if 0 < n < FullTurn {
      TicksClosedForm(angle, n);
      ModOneTurn(angle - n);
    }
  }

  /** Python's `a // 2`: the largest integer whose double does not exceed `a`. */
  function FloorHalf(a: int): (r: int)
    ensures 2 * r <= a < 2 * r + 2
  {
    a / 2
  }

  /**
   * The translations of the paint handler: the rotation pivot `(pivotX, pivotY)`
   * and the offset `(imageX, imageY)` that centres the picture on it.
   */
  datatype PaintOffsets = PaintOffsets(pivotX: int, pivotY: int, imageX: int, imageY: int)

  function ComputeOffsets(width: int, height: int, pixmapWidth: int, pixmapHeight: int): PaintOffsets {
    var visibleWidth := FloorHalf(width);
    var fullWidth := width;
    var xOffset := -(fullWidth - visibleWidth);
    PaintOffsets(FloorHalf(width) + xOffset, FloorHalf(height), FloorHalf(-pixmapWidth), FloorHalf(-pixmapHeight))
  }

  /**
   * The pivot sits on the widget's left edge (one pixel further left when the
   * width is odd) at half its height, so only the right half of the rotating
   * picture is visible; the picture is shifted back by half its size, rounded up.
   */
  lemma OffsetsMeaning(width: int, height: int, pixmapWidth: int, pixmapHeight: int)
    ensures var o := ComputeOffsets(width, height, pixmapWidth, pixmapHeight);
      && o.pivotX == -(width % 2)
      && (o.pivotX == 0 || o.pivotX == -1)
      && 0 <= height - 2 * o.pivotY <= 1
      && 0 <= -2 * o.imageX - pixmapWidth <= 1
      && 0 <= -2 * o.imageY - pixmapHeight <= 1
  {
  }

  /** The animated background widget; its repaint request is not modelled. */
  class AnimatedBackground {
    var angle: int

    constructor ()
      ensures angle == 0
    {
      angle := 0;
    }

    method UpdateRotation()
      modifies this
      ensures angle == Tick(old(angle))
    {
      angle := (angle - 1) % FullTurn;
    }
  }
}
