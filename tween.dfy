/** The arithmetic of one spin: the random plan, the two eased tweens and the click pacing.
    Pixel values are exact reals here; the component computes them in IEEE doubles. */
module Tween {
  import opened JsNumber

  /** Width of one tile in pixels, hard-coded in the tick computations. */
  const TileWidth: real := 198.0
  /** Length of the coarse (rotating) phase in milliseconds. */
  const SpinDuration: int := 8000
  /** Length of the fine (centering) phase in milliseconds. */
  const CenterDuration: int := 800

  /** Where the reel stands: the centre item index and the pixel offset towards the next item. */
  datatype Position = Position(center: int, offset: real)

  /** Full passes over the item list, from a draw `u` of `Math.random()`. */
  function Rotations(u: real): (rotations: int)
    requires 0.0 <= u < 1.0
    ensures 8 <= rotations <= 12
  {
    8 + (u * 5.0).Floor
  }

  /** Fraction of a tile by which the coarse phase overshoots, from a draw `u` of `Math.random()`. */
  function RandomOffset(u: real): (jitter: real)
    requires 0.0 <= u < 1.0
    ensures 0.1 <= jitter < 0.5
  {
    0.1 + u * 0.4
  }

  /** Forward steps from `centerItemIndex` to `targetIndex` around a list of `n` items. */
  function StepsToTarget(targetIndex: int, centerItemIndex: int, n: int): (steps: int)
    requires n > 0 && 0 <= targetIndex < n && 0 <= centerItemIndex < n
    ensures 0 <= steps < n
    ensures (centerItemIndex + steps) % n == targetIndex
    ensures steps == 0 <==> centerItemIndex == targetIndex
  {
    StepsLand(targetIndex, centerItemIndex, n);
    JsRem(targetIndex - centerItemIndex + n, n)
  }

  lemma StepsLand(t: int, c: int, n: int)
    requires n > 0 && 0 <= t < n && 0 <= c < n
    ensures (c + JsRem(t - c + n, n)) % n == t
    ensures JsRem(t - c + n, n) == 0 <==> c == t
  {
    TrueModulo(t - c + n, n);
    if t >= c {
      DivModUnique(t - c + n, 1, t - c, n);
      DivModUnique(t, 0, t, n);
    } else {
      DivModUnique(t - c + n, 0, t - c + n, n);
      DivModUnique(t + n, 1, t, n);
    }
  }

  /** Moving `d` places forward (`0 <= d < n`) from `i`, computed as `(i + d + n) % n` in the
      component, lands `d` places ahead of `i` around the list. */
  lemma WrapForward(i: int, d: int, n: int)
    requires n > 0 && 0 <= i < n && 0 <= d < n
    ensures (JsRem(i + d + n, n) - i) % n == d
    ensures d == 0 ==> JsRem(i + d + n, n) == i
  {
    TrueModulo(i + d + n, n);
    var a := i + d;
    if a < n {
      DivModUnique(a + n, 1, a, n);
      DivModUnique(d, 0, d, n);
    } else {
      DivModUnique(a + n, 2, a - n, n);
      DivModUnique(d - n, -1, d, n);
    }
  }

  /** A product of two non-negative reals is non-negative. */
  lemma MulNonNegative(a: real, b: real)
    requires 0.0 <= a && 0.0 <= b
    ensures 0.0 <= a * b
  {
  }

  /** The fractional number of tiles the coarse phase travels in all. */
  function TotalSteps(rotations: int, n: int, stepsToTarget: int, randomOffset: real): (totalSteps: real)
    ensures 0.0 <= randomOffset < 1.0 ==> totalSteps.Floor == rotations * n + stepsToTarget
    ensures totalSteps - totalSteps.Floor as real == randomOffset - randomOffset.Floor as real
  {
    var wholeSteps := rotations * n + stepsToTarget;
    FloorShift(wholeSteps, randomOffset);
    wholeSteps as real + randomOffset
  }

  /** Adding a whole number to a real adds it to the floor. */
  lemma FloorShift(k: int, r: real)
    ensures (k as real + r).Floor == k + r.Floor
  {
  }

  /** Elapsed time as a fraction of `duration`, capped at 1. */
  function Progress(elapsed: int, duration: int): (progress: real)
    requires elapsed >= 0 && duration > 0
    ensures 0.0 <= progress <= 1.0
    ensures progress == 1.0 <==> elapsed >= duration
    ensures progress < 1.0 ==> progress * duration as real == elapsed as real
  {
    var q := elapsed as real / duration as real;
    if q < 1.0 then q else 1.0
  }

  /** A later frame of the same phase never has less progress. */
  lemma ProgressMonotone(e1: int, e2: int, duration: int)
    requires 0 <= e1 <= e2 && duration > 0
    ensures Progress(e1, duration) <= Progress(e2, duration)
  {
    if e2 < duration {
      var d := duration as real;
      assert e1 as real / d <= e2 as real / d by {
        assert (e2 as real / d - e1 as real / d) * d == e2 as real - e1 as real;
      }
    }
  }

  /** `x` to the power `k`. */
  function {:induction false} Pow(x: real, k: nat): (r: real)
    ensures 0.0 <= x <= 1.0 ==> 0.0 <= r <= 1.0
    ensures 0.0 <= x < 1.0 && k > 0 ==> r < 1.0
    ensures 0.0 < x ==> 0.0 < r
    ensures x == 0.0 && k > 0 ==> r == 0.0
    ensures x == 1.0 ==> r == 1.0
  {
    if k == 0 then 1.0 else x * Pow(x, k - 1)
  }

  /** Ease-out of degree `k`: `1 - (1 - progress)^k`, fast at first and decelerating to a stop. */
  function EaseOut(progress: real, k: nat): (eased: real)
    requires 0.0 <= progress <= 1.0 && k > 0
    ensures 0.0 <= eased <= 1.0
    ensures eased == 1.0 <==> progress == 1.0
    ensures eased == 0.0 <==> progress == 0.0
  {
    1.0 - Pow(1.0 - progress, k)
  }

  /** Powers of numbers in [0, 1] grow with the base. */
  lemma {:induction false} PowMonotone(x: real, y: real, k: nat)
    requires 0.0 <= x <= y <= 1.0
    ensures Pow(x, k) <= Pow(y, k)
  {
    if k > 0 {
      PowMonotone(x, y, k - 1);
      MulMonotone(x, Pow(x, k - 1), y, Pow(y, k - 1));
    }
  }

  /** Products of non-negative reals grow with both factors. */
  lemma MulMonotone(x: real, a: real, y: real, b: real)
    requires 0.0 <= x <= y && 0.0 <= a <= b
    ensures x * a <= y * b
  {
  }

  /** Later in the tween never means less eased progress, so the coarse reel never runs backwards. */
  lemma EaseOutMonotone(p: real, q: real, k: nat, totalSteps: real)
    requires 0.0 <= p <= q <= 1.0 && k > 0 && 0.0 <= totalSteps
    ensures EaseOut(p, k) <= EaseOut(q, k)
    ensures totalSteps * EaseOut(p, k) <= totalSteps * EaseOut(q, k)
  {
    PowMonotone(1.0 - q, 1.0 - p, k);
  }

  /** One coarse tick: the eased share of the total steps, split into whole tiles and a pixel offset. */
  function CoarsePosition(startIndex: int, totalSteps: real, eased: real, n: int): (pos: Position)
    requires n > 0 && 0 <= startIndex < n && 0.0 <= totalSteps && 0.0 <= eased <= 1.0
    ensures 0 <= pos.center < n && 0.0 <= pos.offset < TileWidth
    ensures pos.center == (startIndex + (totalSteps * eased).Floor) % n
    ensures (totalSteps * eased).Floor as real * TileWidth + pos.offset == totalSteps * eased * TileWidth
  {
    var currentStep := totalSteps * eased;
    var itemsMovedComplete := currentStep.Floor;
    var itemProgress := currentStep - itemsMovedComplete as real;
    TrueModulo(startIndex + itemsMovedComplete, n);
    Position(JsRem(startIndex + itemsMovedComplete, n), itemProgress * TileWidth)
  }

  /** When the coarse phase completes, the plan has brought the target under the landing marker with the
      jitter left over as offset, so the fine phase has no whole tiles to move. */
  lemma CoarseLandsOnTarget(startIndex: int, targetIndex: int, rotations: int, randomOffset: real, n: int)
    requires n > 0 && 0 <= startIndex < n && 0 <= targetIndex < n
    requires 8 <= rotations <= 12 && 0.1 <= randomOffset < 0.5
    ensures var steps := StepsToTarget(targetIndex, startIndex, n);
      var pos := CoarsePosition(startIndex, TotalSteps(rotations, n, steps, randomOffset), 1.0, n);
      TotalSteps(rotations, n, steps, randomOffset).Floor == rotations * n + steps &&
      pos.center == targetIndex && 19.8 <= pos.offset < 99.0 &&
      StepsToTarget(targetIndex, pos.center, n) == 0
  {
    var steps := StepsToTarget(targetIndex, startIndex, n);
    var total := TotalSteps(rotations, n, steps, randomOffset);
    assert total * 1.0 == total;
    assert total.Floor == rotations * n + steps;
    ModShift(startIndex + steps, rotations, n);
    assert startIndex + total.Floor == startIndex + steps + rotations * n;
  }

  /** A convex combination of `s` and `m` lies between them. */
  lemma ConvexBounds(s: real, m: real, e: real)
    requires 0.0 <= s && 0.0 <= m && 0.0 <= e <= 1.0
    ensures 0.0 <= (1.0 - e) * s + e * m
    ensures s <= m ==> (1.0 - e) * s + e * m <= m
    ensures m == 0.0 ==> (1.0 - e) * s + e * m <= s
  {
    MulNonNegative(1.0 - e, s);
    MulNonNegative(e, m);
    MulNonNegative(e, s);
    assert s - ((1.0 - e) * s + e * m) == e * s - e * m;
    assert m - ((1.0 - e) * s + e * m) == (1.0 - e) * (m - s);
    if s <= m {
      MulNonNegative(1.0 - e, m - s);
    }
  }

  /** Pixels covered by the fine phase so far: the start offset plus the eased share of the distance. */
  function FineTravel(startOffset: real, totalPixelDistance: real, itemsToMove: int, eased: real): (travel: real)
    requires 0.0 <= startOffset < TileWidth && itemsToMove >= 0 && 0.0 <= eased <= 1.0
    requires totalPixelDistance == itemsToMove as real * TileWidth - startOffset
    ensures travel == (1.0 - eased) * startOffset + eased * (itemsToMove as real * TileWidth)
    ensures 0.0 <= travel
    ensures itemsToMove == 0 ==> travel <= startOffset
    ensures itemsToMove > 0 ==> travel <= itemsToMove as real * TileWidth
  {
    ConvexBounds(startOffset, itemsToMove as real * TileWidth, eased);
    startOffset + totalPixelDistance * eased
  }

  /** One fine tick: the reel stands `travel` pixels past `startCenterIndex`. It never passes the
      target (`itemsToMove` tiles ahead) and stays on its start tile when there is no tile to move. */
  function FinePosition(startCenterIndex: int, startOffset: real, totalPixelDistance: real,
                        itemsToMove: int, eased: real, n: int): (pos: Position)
    requires n > 0 && 0 <= startCenterIndex < n && 0 <= itemsToMove < n
    requires 0.0 <= startOffset < TileWidth && 0.0 <= eased <= 1.0
    requires totalPixelDistance == itemsToMove as real * TileWidth - startOffset
    ensures 0 <= pos.center < n && 0.0 <= pos.offset < TileWidth
    ensures 0 <= (pos.center - startCenterIndex) % n <= itemsToMove
    ensures ((pos.center - startCenterIndex) % n) as real * TileWidth + pos.offset
            == FineTravel(startOffset, totalPixelDistance, itemsToMove, eased)
    ensures itemsToMove == 0 ==> pos.center == startCenterIndex && pos.offset <= startOffset
  {
    var currentPixelOffset := FineTravel(startOffset, totalPixelDistance, itemsToMove, eased);
    var itemsMoved := (currentPixelOffset / TileWidth).Floor;
    WholeTiles(currentPixelOffset, startOffset, itemsToMove);
    WrapForward(startCenterIndex, itemsMoved, n);
    Position(JsRem(startCenterIndex + itemsMoved + n, n), currentPixelOffset - itemsMoved as real * TileWidth)
  }

  /** The whole tiles in a fine-phase travel never exceed the tiles to move, and what is left over
      is less than one tile. */
  lemma WholeTiles(travel: real, startOffset: real, itemsToMove: int)
    requires 0.0 <= travel && 0.0 <= startOffset < TileWidth && 0 <= itemsToMove
    requires itemsToMove == 0 ==> travel <= startOffset
    requires itemsToMove > 0 ==> travel <= itemsToMove as real * TileWidth
    ensures var itemsMoved := (travel / TileWidth).Floor;
      0 <= itemsMoved <= itemsToMove &&
      0.0 <= travel - itemsMoved as real * TileWidth < TileWidth
  {
  }

  /** The least gap in milliseconds between two clicks; it widens as the reel slows down. */
  function ClickThreshold(progress: real): (minInterval: real)
    requires 0.0 <= progress <= 1.0
    ensures 50.0 <= minInterval <= 200.0
  {
    50.0 * (1.0 + progress * 3.0)
  }

  /** Whether enough time has passed since the last click to play another one (strictly longer
      than the threshold). */
  function ClickDue(now: int, lastSoundTime: int, progress: real): (due: bool)
    requires 0.0 <= progress <= 1.0
    ensures due ==> now - lastSoundTime > 50
    ensures now - lastSoundTime > 200 ==> due
    ensures progress == 0.0 ==> (due <==> now - lastSoundTime > 50)
    ensures progress == 1.0 ==> (due <==> now - lastSoundTime > 200)
  {
    (now - lastSoundTime) as real > ClickThreshold(progress)
  }
}
