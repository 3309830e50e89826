/**
  Where main.cpp places its tree instances: three maples at fixed positions,
  then a receding row of pine trees whose transformation is updated after
  every instance (scale times 0.8, a vertical push that decays by 0.7 and
  accumulates, a step of -8 in x). Float arithmetic is modelled on reals.
 */
module Placement {
  import opened Commands

  const PineTreeCount: nat := 10

  /** b to the power k. */
  function Pow(b: real, k: nat): real
  {
    if k == 0 then 1.0 else b * Pow(b, k - 1)
  }

  /** A default Transformation moved to (x, y, 0). */
  function At(x: real, y: real): Transformation
  {
    DefaultTransformation.(translate := Vec3(x, y, 0.0))
  }

  /** The maple placements: x = -10 and y = 75, 120, 175. */
  function MaplePlacements(): seq<Transformation>
  {
    [At(-10.0, 75.0), At(-10.0, 120.0), At(-10.0, 175.0)]
  }

  /** The variables of the pine loop: the transformation and the push. */
  datatype PineCursor = PineCursor(transform: Transformation, ypush: real)

  /** pineTransform{{-20, -120, 0}, {0.8, 0.8, 0.8}} and ypush = 40. */
  const PineStart := PineCursor(DefaultTransformation.(translate := Vec3(-20.0, -120.0, 0.0), scale := Vec3(0.8, 0.8, 0.8)), 40.0)

  /** The updates at the end of one pass of the pine loop, in source order. */
  function Advance(c: PineCursor): PineCursor
  {
    var t := c.transform.(scale := c.transform.scale.Times(0.8));
    var push := c.ypush * 0.7;
    var t' := t.(translate := t.translate.(y := t.translate.y + push));
    PineCursor(t'.(translate := t'.translate.(x := t'.translate.x - 8.0)), push)
  }

  /** The loop variables at the start of pass k. */
  function PineCursorAt(k: nat): PineCursor
  {
    if k == 0 then PineStart else Advance(PineCursorAt(k - 1))
  }

  /** The transformations of the first n pine instances. */
  function PinePlacements(n: nat): seq<Transformation>
  {
    if n == 0 then [] else PinePlacements(n - 1) + [PineCursorAt(n - 1).transform]
  }

  /** The sum of the pushes 40 * 0.7^j for j = 1 .. k. */
  function PushSum(k: nat): real
  {
    if k == 0 then 0.0 else PushSum(k - 1) + 40.0 * Pow(0.7, k)
  }

  /** The k-th pine placement in closed form. */
  function PinePlacement(k: nat): Transformation
  {
    var s := 0.8 * Pow(0.8, k);
    DefaultTransformation.(translate := Vec3(-20.0 - 8.0 * k as real, -120.0 + PushSum(k), 0.0), scale := Vec3(s, s, s))
  }

  /** After k passes the loop holds the closed-form placement and a push of
      40 * 0.7^k. */
  lemma {:induction false} PineCursorClosedForm(k: nat)
    ensures PineCursorAt(k) == PineCursor(PinePlacement(k), 40.0 * Pow(0.7, k))
  {
    if k > 0 {
      PineCursorClosedForm(k - 1);
      var s := 0.8 * Pow(0.8, k - 1);
      assert s * 0.8 == 0.8 * Pow(0.8, k);
    }
  }

  /** The pine loop places instance k with x = -20 - 8k, y = -120 plus the sum
      of the first k pushes, and scale 0.8 * 0.8^k; rotation stays the default. */
  lemma {:induction false} PinePlacementsAt(n: nat, k: nat)
    requires k < n
    ensures |PinePlacements(n)| == n
    ensures PinePlacements(n)[k] == PinePlacement(k)
  {
    PinePlacementsLength(n);
    if k < n - 1 {
      PinePlacementsAt(n - 1, k);
    } else {
      PineCursorClosedForm(k);
    }
  }

  lemma {:induction false} PinePlacementsLength(n: nat)
    ensures |PinePlacements(n)| == n
  {
    if n > 0 {
      PinePlacementsLength(n - 1);
    }
  }

  /** The accumulated push is a geometric sum: 280/3 * (1 - 0.7^k). */
  lemma {:induction false} PushSumClosedForm(k: nat)
    ensures PushSum(k) == (280.0 / 3.0) * (1.0 - Pow(0.7, k))
  {
    if k > 0 {
      PushSumClosedForm(k - 1);
    }
  }

  /** 0 < b^k <= 1 and b^k shrinks strictly as k grows, for 0 < b < 1. */
  lemma {:induction false} PowDecreasing(b: real, j: nat, k: nat)
    requires 0.0 < b < 1.0
    requires j < k
    ensures 0.0 < Pow(b, k) < Pow(b, j) <= 1.0
    decreases k
  {
    PowStep(b, k - 1);
    if j < k - 1 {
      PowDecreasing(b, j, k - 1);
    } else {
      PowPositive(b, j);
    }
  }

  /** One more factor b makes b^k strictly smaller and keeps it positive. */
  lemma {:induction false} PowStep(b: real, k: nat)
    requires 0.0 < b < 1.0
    ensures 0.0 < Pow(b, k + 1) < Pow(b, k) <= 1.0
  {
    PowPositive(b, k);
    ShrinkBy(b, Pow(b, k), Pow(b, k + 1));
  }

  /** q = b * p is positive and below p, for 0 < b < 1 and 0 < p. */
  lemma ShrinkBy(b: real, p: real, q: real)
    requires 0.0 < b < 1.0 && 0.0 < p && q == b * p
    ensures 0.0 < q < p
  {
    var c := 1.0 - b;
    assert c * p > 0.0;
    assert b * p > 0.0;
    assert p - q == c * p;
  }

  lemma {:induction false} PowPositive(b: real, k: nat)
    requires 0.0 < b < 1.0
    ensures 0.0 < Pow(b, k) <= 1.0
  {
    if k > 0 {
      PowPositive(b, k - 1);
      ShrinkBy(b, Pow(b, k - 1), Pow(b, k));
    }
  }

  /** The pine row recedes: each later tree is further along -x, further along
      +y and smaller, and no tree gets past y = -120 + 280/3. */
  lemma PineRowRecedes(j: nat, k: nat)
    requires j < k
    ensures PinePlacement(k).translate.x < PinePlacement(j).translate.x
    ensures PinePlacement(j).translate.y < PinePlacement(k).translate.y < -120.0 + 280.0 / 3.0
    ensures 0.0 < PinePlacement(k).scale.x < PinePlacement(j).scale.x
  {
    PowDecreasing(0.8, j, k);
    PowDecreasing(0.7, j, k);
    PushSumClosedForm(j);
    PushSumClosedForm(k);
  }
}
