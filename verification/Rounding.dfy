/** `Math.round` on exact reals: halves go up. */
module Rounding {
  function Round(x: real): int { (x + 0.5).Floor }

  lemma RoundMonotone(x: real, y: real)
    requires x <= y
    ensures Round(x) <= Round(y)
  {}

  lemma ShareWithin(points: int, maximum: int)
    requires 0 <= points <= maximum && maximum > 0
    ensures 0.0 <= points as real / maximum as real <= 1.0
  {
    var m, share := maximum as real, points as real / maximum as real;
    assert share * m == points as real;
    if share < 0.0 { ScaleStrictly(share, 0.0, m); }
    if share > 1.0 { ScaleStrictly(1.0, share, m); }
  }

  lemma ScaleStrictly(low: real, high: real, scale: real)
    requires low < high && scale > 0.0
    ensures low * scale < high * scale
  {
    assert (high - low) * scale > 0.0;
  }
}
