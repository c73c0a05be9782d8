/** The strip of nine tiles drawn around the centre item of the reel. */
module ReelLayout {
  import opened Rarity
  import opened JsNumber

  /** Tiles shown on each side of the centre tile. */
  const Radius: int := 4

  /** One drawn tile: the item, its place relative to the centre, and its index in the item list. */
  datatype Tile = Tile(item: Item, position: int, actualIndex: int)

  /** The item-list index shown `position` tiles away from the centre (true modulus, wraps around). */
  function WindowIndex(center: int, position: int, n: int): (k: int)
    requires n > 0
    ensures 0 <= k < n
  {
    (center + position) % n
  }

  /** The visible window: positions -4..4 in order, each tile wrapping around the item list. */
  method GetDisplayItems(items: seq<Item>, centerItemIndex: int) returns (tiles: seq<Tile>)
    requires |items| > 0
    ensures |tiles| == 2 * Radius + 1
    ensures forall k :: 0 <= k < |tiles| ==>
      tiles[k].position == k - Radius &&
      tiles[k].actualIndex == WindowIndex(centerItemIndex, k - Radius, |items|) &&
      tiles[k].item == items[tiles[k].actualIndex]
    ensures 0 <= centerItemIndex < |items| ==> tiles[Radius].actualIndex == centerItemIndex
  {
    tiles := [];
    var i := -Radius;
    while i <= Radius
      invariant -Radius <= i <= Radius + 1
      invariant |tiles| == i + Radius
      invariant forall k :: 0 <= k < |tiles| ==>
        tiles[k].position == k - Radius &&
        tiles[k].actualIndex == WindowIndex(centerItemIndex, k - Radius, |items|) &&
        tiles[k].item == items[tiles[k].actualIndex]
    {
      var index := JsRem(centerItemIndex + i, |items|);
      if index < 0 {
        index := index + |items|;
      }
      TrueModulo(centerItemIndex + i, |items|);
      tiles := tiles + [Tile(items[index], i, index)];
      i := i + 1;
    }
  }

  /** Two positions show the same item exactly when they are a multiple of the item count apart,
      so with fewer than nine items indices repeat, and with nine or more they are all distinct. */
  lemma {:induction false} WindowRepeats(center: int, p: int, q: int, n: int)
    requires n > 0
    ensures WindowIndex(center, p, n) == WindowIndex(center, q, n) <==> (p - q) % n == 0
  {
    var qa, qb := (center + p) / n, (center + q) / n;
    var ra, rb := (center + p) % n, (center + q) % n;
    if ra == rb {
      assert p - q == (qa - qb) * n;
      DivModUnique(p - q, qa - qb, 0, n);
    }
    if (p - q) % n == 0 {
      var s := (p - q) / n;
      assert p - q == s * n;
      assert center + p == (qb + s) * n + rb;
      DivModUnique(center + p, qb + s, rb, n);
    }
  }
}
