/** The Duplicador level card: eleven tiers named after growth, two flips per
    tier, the bar within the tier, and the short currency label. */
module FlipLevelCard {
  import opened JsNumbers

  datatype Tier = Tier(level: int, name: string)

  const LevelData: seq<Tier> := [
    Tier(1, "Semilla"), Tier(2, "Brote"), Tier(3, "Planta"), Tier(4, "Árbol"),
    Tier(5, "Bosque"), Tier(6, "Montaña"), Tier(7, "Cohete"), Tier(8, "Estrella"),
    Tier(9, "Diamante"), Tier(10, "Corona"), Tier(11, "Leyenda")
  ]

  /** The table holds tiers 1..11 in order. */
  lemma LevelDataNumbered()
    ensures |LevelData| == 11
    ensures forall i :: 0 <= i < |LevelData| ==> LevelData[i].level == i + 1
  {
  }

  /** `getFlipLevel(flip)`: the chain of `flip <= 2`, `<= 4`, ... `<= 20`. */
  function GetFlipLevel(flip: int): (t: Tier)
    ensures t in LevelData
  {
    if flip <= 2 then LevelData[0]
    else if flip <= 4 then LevelData[1]
    else if flip <= 6 then LevelData[2]
    else if flip <= 8 then LevelData[3]
    else if flip <= 10 then LevelData[4]
    else if flip <= 12 then LevelData[5]
    else if flip <= 14 then LevelData[6]
    else if flip <= 16 then LevelData[7]
    else if flip <= 18 then LevelData[8]
    else if flip <= 20 then LevelData[9]
    else LevelData[10]
  }

  /** The tier of a flip of 1 or more is `min(ceil(flip / 2), 11)`; every flip
      up to 2, including zero and negative ones, is tier 1. */
  lemma FlipLevelFormula(flip: int)
    ensures flip >= 1 ==> GetFlipLevel(flip).level == (if (flip + 1) / 2 <= 11 then (flip + 1) / 2 else 11)
    ensures flip <= 2 ==> GetFlipLevel(flip).level == 1
  {
  }

  /** A later flip is never on a lower tier, and every flip past 20 is "Leyenda". */
  lemma FlipLevelMonotone(f1: int, f2: int)
    requires f1 <= f2
    ensures GetFlipLevel(f1).level <= GetFlipLevel(f2).level
    ensures f1 > 20 ==> GetFlipLevel(f1).name == "Leyenda"
  {
  }

  /** The "next level" label `getFlipLevel(currentFlip + 2)`: the tier after the
      current one, until it stays at tier 11. */
  function NextTier(flip: int): (t: Tier)
    ensures flip >= 1 && GetFlipLevel(flip).level < 11 ==> t.level == GetFlipLevel(flip).level + 1
    ensures GetFlipLevel(flip).level == 11 ==> t.level == 11
  {
    FlipLevelFormula(flip);
    FlipLevelFormula(flip + 2);
    GetFlipLevel(flip + 2)
  }

  /** `levelProgress = ((currentFlip - 1) % 2) / 2 * 100 + 50`, with the
      remainder taking the sign of the dividend as in JavaScript. */
  function LevelProgress(flip: int): (r: real)
    ensures flip >= 1 && flip % 2 == 1 ==> r == 50.0
    ensures flip >= 1 && flip % 2 == 0 ==> r == 100.0
    ensures flip < 1 ==> (r == 50.0 || r == 0.0)
  {
    (JsRem(flip - 1, 2) as real) / 2.0 * 100.0 + 50.0
  }

  /** Which form `formatCurrency` gives an amount. */
  datatype CurrencyLabel =
    | Millions(value: real)  // (amount / 1000000).toFixed(1) + "M€"
    | Thousands(value: real) // (amount / 1000).toFixed(0) + "K€"
    | Units(units: int)      // amount + "€"

  /** `formatCurrency(amount)`: millions from 1 000 000 on, thousands from
      1 000 on, the plain amount below; the label always carries the amount
      scaled by its unit. */
  function FormatCurrency(amount: int): (l: CurrencyLabel)
    ensures l.Millions? <==> amount >= 1000000
    ensures l.Thousands? <==> 1000 <= amount < 1000000
    ensures l.Units? <==> amount < 1000
    ensures l.Millions? ==> l.value * 1000000.0 == amount as real
    ensures l.Thousands? ==> l.value * 1000.0 == amount as real
    ensures l.Units? ==> l.units == amount
  {
    if amount >= 1000000 then Millions(amount as real / 1000000.0)
    else if amount >= 1000 then Thousands(amount as real / 1000.0)
    else Units(amount)
  }
}
