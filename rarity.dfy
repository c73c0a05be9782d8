/** Rarity tiers and the items of a case, as the lootbox component sees them. */
module Rarity {
  import opened Wrappers

  datatype Tier = Common | Rare | Epic | Legendary

  /** Position of a tier on the scale from most common (0) to rarest (3). */
  function Rank(t: Tier): nat
  {
    match t
    case Common => 0
    case Rare => 1
    case Epic => 2
    case Legendary => 3
  }

  /** One reward of the case, as delivered by the host. `rarity` is filled in by `WithRarity`. */
  datatype Item = Item(
    id: int,
    name: string,
    amount: int,
    weight: real,
    percentage: real,
    rarity: Option<Tier>,
    icon: string,
    image: Option<string>)

  /** The tier of an item with the given win percentage; the lower bound of each band belongs to it. */
  function CalculateRarity(percentage: real): (t: Tier)
    ensures t == Common <==> 30.0 <= percentage
    ensures t == Rare <==> 15.0 <= percentage < 30.0
    ensures t == Epic <==> 5.0 <= percentage < 15.0
    ensures t == Legendary <==> percentage < 5.0
  {
    if percentage >= 30.0 then Common
    else if percentage >= 15.0 then Rare
    else if percentage >= 5.0 then Epic
    else Legendary
  }

  /** A larger win percentage never gives a rarer tier. */
  lemma RarityMonotone(p: real, q: real)
    requires p <= q
    ensures Rank(CalculateRarity(q)) <= Rank(CalculateRarity(p))
  {
  }

  /** Every item with its tier recomputed from its percentage; nothing else about it changes. */
  function WithRarity(items: seq<Item>): (rated: seq<Item>)
    ensures |rated| == |items|
    ensures forall i :: 0 <= i < |items| ==>
      rated[i].rarity == Some(CalculateRarity(items[i].percentage)) &&
      rated[i].(rarity := items[i].rarity) == items[i]
  {
    seq(|items|, i requires 0 <= i < |items| => items[i].(rarity := Some(CalculateRarity(items[i].percentage))))
  }
}
