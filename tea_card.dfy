/**
 * The tea card tile (client/src/components/TeaCard.tsx): the colour and
 * border classes chosen by rarity, the star rating, the five star slots and
 * the quantity badge.
 */
module TeaCardView {
  import opened Common
  import GameData

  /** `rarityColors`. */
  const RarityColors: map<string, string> := map[
    "common" := "bg-gradient-to-br from-slate-500 to-slate-600 text-white shadow-slate-500/25",
    "uncommon" := "bg-gradient-to-br from-emerald-400 to-green-500 text-white shadow-emerald-500/25",
    "rare" := "bg-gradient-to-br from-blue-400 to-cyan-500 text-white shadow-blue-500/25",
    "epic" := "bg-gradient-to-br from-purple-400 to-pink-500 text-white shadow-purple-500/25",
    "legendary" := "bg-gradient-to-br from-yellow-400 to-orange-500 text-slate-900 shadow-yellow-500/25 animate-glow-pulse"
  ]

  /** `rarityBorderColors`. */
  const RarityBorderColors: map<string, string> := map[
    "common" := "border-slate-400/50",
    "uncommon" := "border-emerald-400/50",
    "rare" := "border-blue-400/50",
    "epic" := "border-purple-400/50",
    "legendary" := "border-yellow-400/50"
  ]

  /** `rarityColors[rarity] || rarityColors.common`. */
  function RarityClass(rarity: string): (r: string)
    ensures rarity in GameData.RarityStars ==> r == RarityColors[rarity]
    ensures rarity !in GameData.RarityStars ==> r == RarityColors["common"]
  {
    if rarity in RarityColors then RarityColors[rarity] else RarityColors["common"]
  }

  /** `rarityBorderColors[rarity] || rarityBorderColors.common`. */
  function BorderClass(rarity: string): (r: string)
    ensures rarity in GameData.RarityStars ==> r == RarityBorderColors[rarity]
    ensures rarity !in GameData.RarityStars ==> r == RarityBorderColors["common"]
  {
    if rarity in RarityBorderColors then RarityBorderColors[rarity] else RarityBorderColors["common"]
  }

  /** `getStarCount`: it agrees with `RARITY_STARS` on the five rarities and gives one star to anything else. */
  function StarCount(rarity: string): (n: int)
    ensures 1 <= n <= 5
    ensures rarity in GameData.RarityStars ==> n == GameData.RarityStars[rarity]
    ensures rarity !in GameData.RarityStars ==> n == 1
  {
    match rarity
    case "legendary" => 5
    case "epic" => 4
    case "rare" => 3
    case "uncommon" => 2
    case "common" => 1
    case _ => 1
  }

  /** The five stars, `true` where a star is drawn filled (`i < starCount`). */
  function StarSlots(rarity: string): (slots: seq<bool>)
    ensures |slots| == 5
    ensures forall i :: 0 <= i < 5 ==> (slots[i] <==> i < StarCount(rarity))
  {
    seq(5, i requires 0 <= i < 5 => i < StarCount(rarity))
  }

  /** The filled stars come first, and a higher rarity fills a superset of a lower one's stars. */
  lemma StarSlotsMonotone(lower: string, higher: string)
    requires lower in GameData.RarityStars && higher in GameData.RarityStars
    requires GameData.RarityStars[lower] <= GameData.RarityStars[higher]
    ensures var s := StarSlots(lower); forall i, j :: 0 <= i < j < 5 && s[j] ==> s[i]
    ensures forall i :: 0 <= i < 5 && StarSlots(lower)[i] ==> StarSlots(higher)[i]
  {
  }

  /** The `x{quantity}` badge, shown only for duplicates. */
  function QuantityBadge(quantity: int): (r: Option<int>)
    ensures r.Some? <==> quantity > 1
    ensures r.Some? ==> r.value == quantity
  {
    if quantity > 1 then Some(quantity) else None
  }

  /** The class tables cover exactly the rarities rated by `RARITY_STARS`. */
  lemma ClassTablesCoverRarities()
    ensures RarityColors.Keys == GameData.RarityStars.Keys
    ensures RarityBorderColors.Keys == GameData.RarityStars.Keys
  {
  }
}
