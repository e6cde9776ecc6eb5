/** Coordinate mapping shared by the heightmap generator and the splatmap
    classifier of the terrain script: rounding to the nearest integer, the
    alphamap-to-heightmap index mapping, and the normalised noise coordinate. */
module Sampling {

  /** How a rounding to the nearest integer settles an exact tie at .5.
      `Mathf.RoundToInt` rounds ties to even; the model keeps the tie rule
      a parameter so that nothing proved depends on it. */
  datatype TieRule = TiesToEven | TiesUp | TiesDown

  /** `Mathf.RoundToInt`: the nearest integer, within one half of `v`. */
  function RoundToInt(v: real, tie: TieRule): (r: int)
    ensures v - 0.5 <= r as real <= v + 0.5
    // only an exact tie leaves a choice between two integers
    ensures v - 0.5 < r as real < v + 0.5 || v - v.Floor as real == 0.5
  {
    var f := v.Floor;
    var frac := v - f as real;
    if frac < 0.5 then f
    else if frac > 0.5 then f + 1
    else match tie
      case TiesToEven => if f % 2 == 0 then f else f + 1
      case TiesUp => f + 1
      case TiesDown => f
  }

  /** The fraction `i / n` of a grid axis, for a cell index inside the grid,
      lies in [0, 1). */
  lemma FractionOfAxis(i: int, n: int)
    requires 0 <= i < n
    ensures 0.0 <= i as real / n as real < 1.0
  {
  }

  /** The heightmap index sampled for alphamap index `i` on an axis of
      `alphaDim` cells when the heightmap axis has `hmDim` samples:
      `RoundToInt(i / alphaDim * hmDim)`. It never falls below 0, and it can
      reach `hmDim` itself (one past the last sample), never beyond. */
  function SampleIndex(i: int, alphaDim: int, hmDim: int, tie: TieRule): (r: int)
    requires 0 <= i < alphaDim
    ensures 0 <= hmDim ==> 0 <= r <= hmDim
  {
    var q := i as real / alphaDim as real;
    FractionOfAxis(i, alphaDim);
    assert 0 <= hmDim ==> 0.0 <= q * hmDim as real <= hmDim as real by {
      if 0 <= hmDim {
        assert q * hmDim as real <= 1.0 * hmDim as real;
      }
    }
    var r := RoundToInt(q * hmDim as real, tie);
    assert 0 <= hmDim ==> r as real < hmDim as real + 1.0;
    r
  }

  /** The upper end of `SampleIndex`'s range is reached: whenever the
      alphamap axis has more than twice as many cells as the heightmap axis
      has samples, the last alphamap cell maps to `hmDim` itself, one past
      the last heightmap sample, whatever the tie rule. */
  lemma SampleIndexReachesDimension(alphaDim: int, hmDim: int, tie: TieRule)
    requires 0 <= hmDim && 2 * hmDim < alphaDim
    ensures SampleIndex(alphaDim - 1, alphaDim, hmDim, tie) == hmDim
  {
    var v := (alphaDim - 1) as real / alphaDim as real * hmDim as real;
    var d := LastCellShortfall(alphaDim as real, hmDim as real);
    RoundsToDimension(v, hmDim, tie);
    assert SampleIndex(alphaDim - 1, alphaDim, hmDim, tie) == RoundToInt(v, tie);
  }

  /** A value less than one half below `n`, and not above it, rounds to `n`. */
  lemma RoundsToDimension(v: real, n: int, tie: TieRule)
    requires 0 <= n && n as real - 0.5 < v <= n as real
    ensures RoundToInt(v, tie) == n
  {
    if v < n as real {
      assert v.Floor == n - 1;
    } else {
      assert v.Floor == n;
    }
  }

  /** The last of `a` cells lands `h / a` short of `h`, which is less than
      one half when `2 h < a`. */
  lemma LastCellShortfall(a: real, h: real) returns (d: real)
    requires 0.0 <= h && 2.0 * h < a
    ensures d == h / a && 0.0 <= d < 0.5
    ensures (a - 1.0) / a * h == h - d
  {
    d := h / a;
    assert d * a == h;
    assert (a - 1.0) / a * h == (a - 1.0) * h / a;
    assert (a - 1.0) * h / a == (a * h - h) / a;
    assert (a * h - h) / a == a * h / a - h / a;
  }

  /** The noise coordinate of grid index `i` on an axis of `n` cells:
      `i / n * scale`. Indices on the grid map into [0, scale], with the
      origin at 0. */
  function CellCoord(i: int, n: int, scale: real): (r: real)
    requires n > 0
    ensures 0 <= i <= n && 0.0 <= scale ==> 0.0 <= r <= scale
    ensures i == 0 ==> r == 0.0
  {
    var q := i as real / n as real;
    assert 0 <= i <= n ==> q <= 1.0 by {
      if 0 <= i <= n { assert q * n as real == i as real; }
    }
    assert 0 <= i <= n && 0.0 <= scale ==> 0.0 <= q * scale <= scale by {
      if 0 <= i <= n && 0.0 <= scale {
        assert q * scale <= 1.0 * scale;
      }
    }
    q * scale
  }
}
